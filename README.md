# Frontera DB worker: the batch generator

This project models `BatchGenerator`, the component of Frontera's DB worker that, once per call of
`run()`, moves a bounded batch of requests from the backend onto the spider feed, and proves
properties of that model in Dafny.

One call of `run()`:
- returns at once when the disable event is set;
- asks the spider feed which partitions are writable, and returns when there are none;
- pulls up to `MAX_NEXT_REQUESTS` requests from the backend for exactly those partitions;
- drops requests whose hostname is on `DOMAINS_BLACKLIST`;
- tags each remaining request with the worker's job id, encodes it, and sends `(key, payload)` to the
  spider-feed producer under the key of the configured strategy (fingerprint, or hostname when
  `QUEUE_HOSTNAME_PARTITIONING` is set);
- counts every remaining request, including those whose encoding failed;
- when the count is not zero, makes one stats update.

Layout, one module per file:
- `wrappers.dfy`: `Option`.
- `text.dfy`: lower-casing and UTF-8 encoding, with a decoder that undoes the encoding.
- `requests.dfy`: the request, the URL parser's answer, the faults that escape `run`, the key
  strategy.
- `key_selection.dfy`: `get_fingerprint`, `get_hostname` and the strategy chosen at construction.
- `blacklist.dfy`: `_is_domain_blacklisted`.
- `cycle.dfy`: the loop of `run`, specified twice:
  - `Process` follows the loop item by item;
  - `Messages`, `Admitted`, `Dropped` and `EncodingFailures` describe the outcome request by request;
  - lemmas connect the two views.
- `batch_generator.dfy`: the class `BatchGenerator`. Its fields are the configuration, the disable
  flag, call logs of the collaborators, the producer's send stream and the four statistics. `Run` is
  proved against `Process`.

Collaborators:
- The spider feed's list of writable partitions is the argument `partitions` of `Run`.
- The backend's answer to the pull is the argument `batch`; each pull is logged in `pulls`.
- `parse_domain_from_url_fast` is the function-valued field `parse`. It either raises or yields a
  hostname, which may be None.
- The encoder is the field `encoder`; None means it raised.
- The producer is the log `sends` together with the counter `producerCloses`.
- `asctime()` is the argument `now`.

Where the source lets an exception escape `run()`, the model returns `Aborted` and keeps the
messages already sent: exactly those of the requests before the first one whose loop body raised
(`Cycle.AbortedSends`). There are two such places:
- the URL parser raising inside `_is_domain_blacklisted`;
- `get_hostname` calling `.encode` on a None hostname.

Four behaviours of the code are easy to miss, and the model keeps them:
- The hostname key is the hostname exactly as parsed, not lower-cased;
  `KeySelection.HostnameKeyKeepsCase` shows that two hostnames differing only in case get different
  keys.
- A URL whose hostname cannot be parsed during the blacklist check does not pass the filter: the
  parser's exception leaves `run()`.
- Only the request's hostname is lower-cased before the lookup; the configured entries are used as
  they are. An entry holding an upper-case letter, such as "Spam.example", therefore never matches
  (`Blacklist.UpperEntriesNeverMatch`).
- A parsed URL without a hostname passes the blacklist. Under the hostname strategy, once it has been
  encoded, it aborts the cycle instead of being sent with an absent key. The key is computed only
  after a successful encoding, so if its encoding fails it is counted and skipped like any other.

## Model

| member | source | states |
|---|---|---|
| `Text.Lower` | frontera/worker/components/batch_generator.py:78 | the model's lowering of a hostname for `hostname.lower()` keeps the length and lowers every character on its own, leaving no upper-case ASCII letter |
| `Text.LowerIdempotent` | frontera/worker/components/batch_generator.py:78-79 | lowering an already lowered hostname changes nothing |
| `Text.Utf8` | frontera/worker/components/batch_generator.py:99 | the encoding of a hostname takes one to four bytes per character; what it preserves is stated by `Utf8RoundTrip`, `Utf8Injective` and `Utf8Ascii` |
| `Text.Utf8RoundTrip` | frontera/worker/components/batch_generator.py:99 | the UTF-8 encoding of a hostname decodes back to that hostname, so the encoding loses nothing |
| `Text.Utf8Injective` | frontera/worker/components/batch_generator.py:99 | distinct hostnames encode to distinct key bytes |
| `Text.Utf8Ascii` | frontera/worker/components/batch_generator.py:99 | an ASCII hostname is encoded byte for byte |
| `Requests.Tag` | frontera/worker/components/batch_generator.py:54 | tagging sets the `jid` slot to the job id and leaves URL, fingerprint and domain meta unchanged |
| `KeySelection.GetFingerprint` | frontera/worker/components/batch_generator.py:89-90 | the fingerprint key is the request's fingerprint, unchanged |
| `KeySelection.GetHostname` | frontera/worker/components/batch_generator.py:92-99 | a raising parser gives an absent key; a parsed hostname gives exactly its UTF-8 bytes, not lower-cased, which decode back to that hostname; a None hostname raises |
| `KeySelection.KeyFor` | frontera/worker/components/batch_generator.py:29-31 | the fingerprint strategy keys by `Some(fingerprint)` and the hostname strategy by `GetHostname` |
| `KeySelection.KeyIgnoresTag` | frontera/worker/components/batch_generator.py:54-61 | tagging with the job id before computing the key does not change the key |
| `KeySelection.KeyDeterministic` | frontera/worker/components/batch_generator.py:89-99 | requests with the same URL and fingerprint get the same key under either strategy |
| `KeySelection.HostnameKeyKeepsCase` | frontera/worker/components/batch_generator.py:94-99 | "Example.com" and "example.com" are routed under different hostname keys |
| `Blacklist.ResolveHostname` | frontera/worker/components/batch_generator.py:73-76 | the 'domain' meta name is used when the entry exists; otherwise the URL is parsed and a parser exception propagates |
| `Blacklist.IsDomainBlacklisted` | frontera/worker/components/batch_generator.py:70-82 | an empty blacklist never drops; the check raises iff the blacklist is non-empty and resolution raises; it drops iff the resolved hostname is present, non-empty and in the blacklist once lower-cased |
| `Blacklist.DomainMetaTakesPrecedence` | frontera/worker/components/batch_generator.py:73-76 | with 'domain' meta present, the verdict does not depend on the URL parser |
| `Blacklist.MissingHostnamePasses` | frontera/worker/components/batch_generator.py:77-82 | a missing or empty hostname always passes |
| `Blacklist.CaseInsensitive` | frontera/worker/components/batch_generator.py:77-79 | two requests whose resolved hostnames, from 'domain' meta or from the URL parser, are equal once lower-cased get the same verdict |
| `Blacklist.UpperEntriesNeverMatch` | frontera/worker/components/batch_generator.py:78-79 | a blacklist whose every entry holds an upper-case ASCII letter drops no request, since only the hostname is lower-cased |
| `Blacklist.VerdictIgnoresTag` | frontera/worker/components/batch_generator.py:51-54 | the verdict does not depend on the job-id tag |
| `Cycle.Step` | frontera/worker/components/batch_generator.py:51-63 | the loop body for one request; what it does is stated by `StepShape`, `StepFault` and `ProcessMatchesReference` |
| `Cycle.StepShape` | frontera/worker/components/batch_generator.py:51-63 | after an exception a step changes nothing; otherwise one request raises the count by at most one and appends at most one message, only together with a count |
| `Cycle.Process` | frontera/worker/components/batch_generator.py:49-63 | the loop over a whole batch: no more sends than counted requests, and no more counted requests than the batch holds; its outcome is stated by `ProcessMatchesReference`, `ProcessFaultFree` and `FaultStopsProcessing` |
| `Cycle.ProcessFaultFree` | frontera/worker/components/batch_generator.py:49-63 | the loop ends without exception iff no request of the batch makes the loop body raise |
| `Cycle.ProcessMatchesReference` | frontera/worker/components/batch_generator.py:49-63 | without exceptions the loop sends exactly the per-request messages in backend order; `count` equals the number of requests passing the blacklist, which is the number of messages plus the number of encoding failures |
| `Cycle.MessagesAppend` | frontera/worker/components/batch_generator.py:49-61 | the messages of a concatenated batch are those of the first part followed by those of the second, so backend order is kept |
| `Cycle.FaultStopsProcessing` | frontera/worker/components/batch_generator.py:53-63 | once a request raises, no later request is filtered, sent or counted |
| `Cycle.AbortedSends` | frontera/worker/components/batch_generator.py:49-63 | when the loop raises, some request is the first whose body raises, and the messages sent are exactly those of the requests before it, nothing for it or after it |
| `Cycle.SentOnlyTaggedAdmitted` | frontera/worker/components/batch_generator.py:51-61 | every message sent is the encoding of a batch request that passed the blacklist, tagged with the job id, under that tagged request's key |
| `Cycle.BlacklistedIgnored` | frontera/worker/components/batch_generator.py:51-52 | inserting a blacklisted request anywhere in a batch changes neither the sends, nor the count, nor the fault |
| `Cycle.AdmittedOrDropped` | frontera/worker/components/batch_generator.py:51-63 | when the blacklist check never raises, admitted plus dropped requests make up the whole batch |
| `Cycle.NoEncodingFailures` | frontera/worker/components/batch_generator.py:55-63 | a batch whose every request encodes has no encoding failures |
| `Cycle.ScenarioEncodingFailure` | frontera/worker/components/batch_generator.py:53-63 | five requests, the third failing to encode: four messages, keyed by the other fingerprints in order, and a count of five |
| `Cycle.FingerprintMessages` | frontera/worker/components/batch_generator.py:51-61 | under the fingerprint strategy, with every request encoding, each admitted request yields exactly one message, in backend order, keyed by its fingerprint |
| `Cycle.ScenarioBlacklisted` | frontera/worker/components/batch_generator.py:51-63 | ten requests keyed by fingerprint, two of them blacklisted and all encoding: eight requests pass, and the eight messages are keyed by their fingerprints in backend order, with a count of eight |
| `BatchGenerators.BatchGenerator.constructor` | frontera/worker/components/batch_generator.py:29-36 | the key strategy is chosen once from hostname partitioning; an absent blacklist means an empty one; batches start enabled |
| `BatchGenerators.BatchGenerator.Run` | frontera/worker/components/batch_generator.py:38-68 | disabled: idle and no collaborator call; no partitions: idle after a single partition query, with no pull, send or stats update; otherwise one pull of `maxNextRequests` for exactly `partitions`, the loop's sends appended in order, and then no stats update on an exception or a zero count, or one update adding `count` and 1 and setting the last size and time |
| `BatchGenerators.BatchGenerator.PushBatch` | frontera/worker/components/batch_generator.py:48-63 | the loop appends `Process(batch).sends` to the producer stream and returns its count and fault |
| `BatchGenerators.BatchGenerator.Close` | frontera/worker/components/batch_generator.py:84-85 | closing calls the producer's `close` once more |

## Left out

- Threading and RPC: the disable event is toggled from another thread by an RPC handler, which is not
  part of this model. The model has a plain field `disabled`, read once at the start of `Run`.
- Logging calls and their message formatting: they change no state.
- `asctime()`: it is the argument `now` of `Run`.
- `parse_domain_from_url_fast`, the encoder, the spider feed, the producer's partitioning and
  transport, and the backend's prioritisation are function-valued fields or arguments, modelled
  without their internals.
- The surrounding `DBWorkerThreadComponent` and its update_stats are not part of this model:
  - the scheduling loop and the `NEW_BATCH_DELAY` backoff are left out;
  - update_stats is modelled as adding the increments and overwriting the replacements;
  - the worker's statistics start at zero in the constructor.
- The `NotConfigured` error on `no_batches` and the settings lookup: the constructor takes the
  resulting values directly.
- Exceptions raised by the producer's `send`, by `available_partitions` or by `get_next_requests`:
  those collaborators are assumed not to raise.
- Sending after `close`: the model does not distinguish the producer's state after `close`.
- `BatchGenerators.BatchGenerator.Run`: it models tagging as building a tagged copy of the request.
  The in-place update of the backend's request object is not captured. `Requests.TagIdempotent`
  shows that tagging a request that already carries the job id leaves it unchanged, so a request
  object handed out twice ends up the same under either reading.
- `BatchGenerators.BatchGenerator.Run`: the backend is not assumed to honour the limit. The model
  records that `maxNextRequests` was asked for and bounds the count by the size of what came back.
- `Text.Lower`: it lowers only the ASCII letters A-Z, one character to one. Python's `str.lower`
  also maps non-ASCII letters, and can change the length ('İ', U+0130, becomes two code points).
- `Text.Utf8`: Python strings may hold lone surrogates, which the 'ignore' handler drops. Dafny
  characters cannot hold them, so that case does not arise.
- `Blacklist.IsDomainBlacklisted`: it treats the configured blacklist as a set of strings. A None
  setting and an empty one are identified, which matches how the code tests them.
