/**
 What the loop of one dispatch cycle does with the requests the backend
 returns, as a function of the generator's configuration. `Process` follows
 the loop item by item, left to right; `Messages`, `Admitted` and
 `EncodingFailures` describe the same outcome request by request, without
 the loop's running state, and the lemmas at the end connect the two.
 */
module Cycle {

  import opened Wrappers
  import opened Text
  import opened Requests
  import opened KeySelection
  import opened Blacklist

  /** What the loop reads from the generator: the blacklist, the key
      strategy, the URL parser, the encoder (None when it raises) and the
      worker's job id. */
  datatype Config = Config(
    blacklist: set<string>,
    strategy: KeyStrategy,
    parse: string -> HostParse,
    encode: Request -> Option<seq<byte>>,
    jobId: int)

  /** One `(key, payload)` pair handed to the spider-feed producer. */
  datatype Message = Message(key: Option<seq<byte>>, payload: seq<byte>)

  /** The loop's running state: the messages sent so far, the local `count`,
      and the exception that ended the loop, if one did. */
  datatype Tally = Tally(sends: seq<Message>, count: nat, fault: Option<Fault>)

  /** The loop body for one request. A blacklisted request changes nothing.
      Otherwise the request is tagged and encoded; a failed encoding sends
      nothing, a successful one is sent under its key; in both cases, and
      also when computing the key raises, the `finally` clause counts it. */
  function Step(cfg: Config, t: Tally, r: Request): Tally
  {
    if t.fault.Some? then t
    else match IsDomainBlacklisted(cfg.blacklist, cfg.parse, r)
      case Raised(f) => t.(fault := Some(f))
      case Value(true) => t
      case Value(false) =>
        var tagged := Tag(r, cfg.jobId);
        match cfg.encode(tagged)
        case None => t.(count := t.count + 1)
        case Some(payload) =>
          match KeyFor(cfg.strategy, cfg.parse, tagged)
          case Raised(f) => Tally(t.sends, t.count + 1, Some(f))
          case Value(key) => Tally(t.sends + [Message(key, payload)], t.count + 1, None)
  }

  /** After an exception a step changes nothing. Otherwise it counts the
      request at most once, and sends at most one message, only for a
      counted request, after the messages already sent. */
  lemma StepShape(cfg: Config, t: Tally, r: Request)
    ensures t.fault.Some? ==> Step(cfg, t, r) == t
    ensures t.fault.None? ==> t.count <= Step(cfg, t, r).count <= t.count + 1
    ensures Step(cfg, t, r).count == t.count ==> Step(cfg, t, r).sends == t.sends
    ensures || Step(cfg, t, r).sends == t.sends
            || (&& Step(cfg, t, r).count == t.count + 1
                && Step(cfg, t, r).sends == t.sends + [Step(cfg, t, r).sends[|t.sends|]])
  {
  }

  /** The loop run over a whole batch, in backend order. */
  function Process(cfg: Config, batch: seq<Request>): (t: Tally)
    ensures |t.sends| <= t.count <= |batch|
  {
    if batch == [] then Tally([], 0, None)
    else
      var before := Process(cfg, batch[..|batch| - 1]);
      StepShape(cfg, before, batch[|batch| - 1]);
      Step(cfg, before, batch[|batch| - 1])
  }

  // ------------------------- the reference view -------------------------

  /** The request passes the blacklist without the check raising. */
  predicate Passes(cfg: Config, r: Request) {
    IsDomainBlacklisted(cfg.blacklist, cfg.parse, r) == Value(false)
  }

  /** The exception the loop body raises for this request, if any. */
  function ItemFault(cfg: Config, r: Request): Option<Fault>
  {
    match IsDomainBlacklisted(cfg.blacklist, cfg.parse, r)
    case Raised(f) => Some(f)
    case Value(true) => None
    case Value(false) =>
      var tagged := Tag(r, cfg.jobId);
      if cfg.encode(tagged).None? then None
      else match KeyFor(cfg.strategy, cfg.parse, tagged)
        case Raised(f) => Some(f)
        case Value(_) => None
  }

  /** No request of the batch makes the loop body raise. */
  predicate NoFaults(cfg: Config, batch: seq<Request>) {
    forall i :: 0 <= i < |batch| ==> ItemFault(cfg, batch[i]).None?
  }

  /** What the producer receives for one request: the encoded, tagged
      request under its key, or nothing. */
  function ItemMessages(cfg: Config, r: Request): (ms: seq<Message>)
    ensures |ms| <= 1
    ensures ms != [] ==> Passes(cfg, r) && cfg.encode(Tag(r, cfg.jobId)) == Some(ms[0].payload)
                         && KeyFor(cfg.strategy, cfg.parse, Tag(r, cfg.jobId)) == Value(ms[0].key)
  {
    if !Passes(cfg, r) then []
    else
      var tagged := Tag(r, cfg.jobId);
      match cfg.encode(tagged)
      case None => []
      case Some(payload) =>
        match KeyFor(cfg.strategy, cfg.parse, tagged)
        case Raised(_) => []
        case Value(key) => [Message(key, payload)]
  }

  /** The messages a batch produces, request by request. */
  function Messages(cfg: Config, batch: seq<Request>): (ms: seq<Message>)
    ensures |ms| <= |batch|
  {
    if batch == [] then [] else ItemMessages(cfg, batch[0]) + Messages(cfg, batch[1..])
  }

  /** The requests of a batch that pass the blacklist, in backend order. */
  function Admitted(cfg: Config, batch: seq<Request>): (a: seq<Request>)
    ensures |a| <= |batch|
    ensures forall r :: r in a ==> r in batch && Passes(cfg, r)
  {
    if batch == [] then []
    else (if Passes(cfg, batch[0]) then [batch[0]] else []) + Admitted(cfg, batch[1..])
  }

  /** The requests of a batch that the blacklist drops, in backend order. */
  function Dropped(cfg: Config, batch: seq<Request>): (d: seq<Request>)
    ensures forall r :: r in d ==> r in batch && IsDomainBlacklisted(cfg.blacklist, cfg.parse, r) == Value(true)
  {
    if batch == [] then []
    else
      (if IsDomainBlacklisted(cfg.blacklist, cfg.parse, batch[0]) == Value(true) then [batch[0]] else [])
        + Dropped(cfg, batch[1..])
  }

  /** The admitted requests whose encoding raised, in backend order. */
  function EncodingFailures(cfg: Config, batch: seq<Request>): (e: seq<Request>)
    ensures forall r :: r in e ==> r in batch && Passes(cfg, r) && cfg.encode(Tag(r, cfg.jobId)).None?
  {
    if batch == [] then []
    else
      var r := batch[0];
      (if Passes(cfg, r) && cfg.encode(Tag(r, cfg.jobId)).None? then [r] else [])
        + EncodingFailures(cfg, batch[1..])
  }

  // ------------------------------ lemmas ------------------------------

  lemma {:induction false} MessagesAppend(cfg: Config, a: seq<Request>, b: seq<Request>)
    ensures Messages(cfg, a + b) == Messages(cfg, a) + Messages(cfg, b)
  {
    if a == [] {
      assert a + b == b;
    } else {
      assert (a + b)[0] == a[0];
      assert (a + b)[1..] == a[1..] + b;
      MessagesAppend(cfg, a[1..], b);
    }
  }

  lemma {:induction false} AdmittedAppend(cfg: Config, a: seq<Request>, b: seq<Request>)
    ensures Admitted(cfg, a + b) == Admitted(cfg, a) + Admitted(cfg, b)
  {
    if a == [] {
      assert a + b == b;
    } else {
      assert (a + b)[0] == a[0];
      assert (a + b)[1..] == a[1..] + b;
      AdmittedAppend(cfg, a[1..], b);
    }
  }

  lemma {:induction false} EncodingFailuresAppend(cfg: Config, a: seq<Request>, b: seq<Request>)
    ensures EncodingFailures(cfg, a + b) == EncodingFailures(cfg, a) + EncodingFailures(cfg, b)
  {
    if a == [] {
      assert a + b == b;
    } else {
      assert (a + b)[0] == a[0];
      assert (a + b)[1..] == a[1..] + b;
      EncodingFailuresAppend(cfg, a[1..], b);
    }
  }

  lemma SingletonViews(cfg: Config, r: Request)
    ensures Messages(cfg, [r]) == ItemMessages(cfg, r)
    ensures Admitted(cfg, [r]) == if Passes(cfg, r) then [r] else []
    ensures EncodingFailures(cfg, [r]) ==
              if Passes(cfg, r) && cfg.encode(Tag(r, cfg.jobId)).None? then [r] else []
  {
    assert [r][1..] == [];
  }

  lemma StepFault(cfg: Config, t: Tally, r: Request)
    ensures Step(cfg, t, r).fault.None? <==> t.fault.None? && ItemFault(cfg, r).None?
    ensures Step(cfg, t, r).fault.Some? ==> Step(cfg, t, r).sends == t.sends
  {
  }

  lemma NoFaultsSnoc(cfg: Config, batch: seq<Request>, r: Request)
    ensures NoFaults(cfg, batch + [r]) <==> NoFaults(cfg, batch) && ItemFault(cfg, r).None?
  {
    assert forall i :: 0 <= i < |batch| ==> (batch + [r])[i] == batch[i];
    assert (batch + [r])[|batch|] == r;
  }

  /** The loop ends without an exception exactly when no request of the
      batch makes its body raise. */
  lemma {:induction false} ProcessFaultFree(cfg: Config, batch: seq<Request>)
    ensures Process(cfg, batch).fault.None? <==> NoFaults(cfg, batch)
  {
    if batch != [] {
      var init, last := batch[..|batch| - 1], batch[|batch| - 1];
      ProcessFaultFree(cfg, init);
      StepFault(cfg, Process(cfg, init), last);
      assert batch == init + [last];
      NoFaultsSnoc(cfg, init, last);
    }
  }

  /** Main correspondence: for a batch that raises nothing, the loop sends
      exactly the reference messages, in backend order, and its count is
      the number of requests passing the blacklist, which is the number of
      messages sent plus the number of encoding failures. */
  lemma {:induction false} ProcessMatchesReference(cfg: Config, batch: seq<Request>)
    requires NoFaults(cfg, batch)
    ensures Process(cfg, batch).sends == Messages(cfg, batch)
    ensures Process(cfg, batch).count == |Admitted(cfg, batch)|
    ensures Process(cfg, batch).count == |Messages(cfg, batch)| + |EncodingFailures(cfg, batch)|
  {
    if batch != [] {
      var init, last := batch[..|batch| - 1], batch[|batch| - 1];
      assert batch == init + [last];
      assert forall i :: 0 <= i < |init| ==> init[i] == batch[i];
      assert ItemFault(cfg, batch[|batch| - 1]).None?;
      ProcessMatchesReference(cfg, init);
      ProcessFaultFree(cfg, init);
      MessagesAppend(cfg, init, [last]);
      AdmittedAppend(cfg, init, [last]);
      EncodingFailuresAppend(cfg, init, [last]);
      SingletonViews(cfg, last);
    }
  }

  /** Once the loop has raised, the rest of the batch is not looked at. */
  lemma {:induction false} FaultStopsProcessing(cfg: Config, a: seq<Request>, b: seq<Request>)
    requires Process(cfg, a).fault.Some?
    ensures Process(cfg, a + b) == Process(cfg, a)
  {
    if b == [] {
      assert a + b == a;
    } else {
      var init := b[..|b| - 1];
      assert (a + b)[..|a + b| - 1] == a + init;
      FaultStopsProcessing(cfg, a, init);
      assert Process(cfg, a + b) == Step(cfg, Process(cfg, a + init), b[|b| - 1]);
    }
  }

  /** A cycle that raises has sent exactly the messages of the requests
      before the first one whose loop body raises, and nothing for that one. */
  lemma {:induction false} AbortedSends(cfg: Config, batch: seq<Request>)
    requires Process(cfg, batch).fault.Some?
    ensures exists i :: 0 <= i < |batch| && NoFaults(cfg, batch[..i]) && ItemFault(cfg, batch[i]).Some?
                        && Process(cfg, batch).sends == Messages(cfg, batch[..i])
  {
    var init, last := batch[..|batch| - 1], batch[|batch| - 1];
    var before := Process(cfg, init);
    assert Process(cfg, batch) == Step(cfg, before, last);
    StepFault(cfg, before, last);
    if before.fault.Some? {
      AbortedSends(cfg, init);
      var i :| 0 <= i < |init| && NoFaults(cfg, init[..i]) && ItemFault(cfg, init[i]).Some?
               && before.sends == Messages(cfg, init[..i]);
      assert init[..i] == batch[..i] && init[i] == batch[i];
      assert NoFaults(cfg, batch[..i]) && ItemFault(cfg, batch[i]).Some?
             && Process(cfg, batch).sends == Messages(cfg, batch[..i]);
    } else {
      ProcessFaultFree(cfg, init);
      ProcessMatchesReference(cfg, init);
      var i := |init|;
      assert batch[..i] == init && batch[i] == last;
      assert NoFaults(cfg, batch[..i]) && ItemFault(cfg, batch[i]).Some?
             && Process(cfg, batch).sends == Messages(cfg, batch[..i]);
    }
  }

  /** One more iteration of the loop over a batch prefix. */
  lemma ProcessPrefix(cfg: Config, batch: seq<Request>, i: nat)
    requires i < |batch|
    ensures Process(cfg, batch[..i + 1]) == Step(cfg, Process(cfg, batch[..i]), batch[i])
  {
    assert batch[..i + 1][..i] == batch[..i];
  }

  /** A loop that raises at request i has the outcome of the whole batch. */
  lemma AbortedAt(cfg: Config, batch: seq<Request>, i: nat)
    requires i < |batch| && Process(cfg, batch[..i + 1]).fault.Some?
    ensures Process(cfg, batch) == Process(cfg, batch[..i + 1])
  {
    FaultStopsProcessing(cfg, batch[..i + 1], batch[i + 1..]);
    assert batch[..i + 1] + batch[i + 1..] == batch;
  }

  /** Every message sent carries the encoding of a request of the batch that
      passed the blacklist and was tagged with the job id, under that
      request's key. */
  lemma {:induction false} SentOnlyTaggedAdmitted(cfg: Config, batch: seq<Request>)
    ensures forall m :: m in Process(cfg, batch).sends ==>
              exists r :: r in batch && Passes(cfg, r)
                          && cfg.encode(Tag(r, cfg.jobId)) == Some(m.payload)
                          && KeyFor(cfg.strategy, cfg.parse, Tag(r, cfg.jobId)) == Value(m.key)
  {
    if batch != [] {
      var init, last := batch[..|batch| - 1], batch[|batch| - 1];
      SentOnlyTaggedAdmitted(cfg, init);
      assert forall r :: r in init ==> r in batch;
    }
  }

  /** A blacklisted request, wherever it stands, adds neither a message nor
      a count. */
  lemma {:induction false} BlacklistedIgnored(cfg: Config, a: seq<Request>, r: Request, b: seq<Request>)
    requires IsDomainBlacklisted(cfg.blacklist, cfg.parse, r) == Value(true)
    ensures Process(cfg, a + [r] + b) == Process(cfg, a + b)
  {
    if b == [] {
      assert (a + [r])[..|a + [r]| - 1] == a;
      assert a + [r] + [] == a + [r] && a + [] == a;
    } else {
      var init, last := b[..|b| - 1], b[|b| - 1];
      BlacklistedIgnored(cfg, a, r, init);
      assert (a + [r] + b)[..|a + [r] + b| - 1] == a + [r] + init;
      assert (a + b)[..|a + b| - 1] == a + init;
    }
  }

  /** When the blacklist check raises for no request, every request is
      either admitted or dropped. */
  lemma {:induction false} AdmittedOrDropped(cfg: Config, batch: seq<Request>)
    requires forall i :: 0 <= i < |batch| ==> IsDomainBlacklisted(cfg.blacklist, cfg.parse, batch[i]).Value?
    ensures |Admitted(cfg, batch)| + |Dropped(cfg, batch)| == |batch|
  {
    if batch != [] {
      assert forall i :: 0 <= i < |batch[1..]| ==> batch[1..][i] == batch[i + 1];
      AdmittedOrDropped(cfg, batch[1..]);
    }
  }

  /** Under the fingerprint strategy, a request that passes the blacklist
      is counted, and sent under its fingerprint when it encodes. */
  lemma FingerprintStep(cfg: Config, t: Tally, r: Request)
    requires cfg.strategy == ByFingerprint && t.fault.None? && Passes(cfg, r)
    ensures Step(cfg, t, r).fault.None? && Step(cfg, t, r).count == t.count + 1
    ensures Step(cfg, t, r).sends ==
              t.sends + match cfg.encode(Tag(r, cfg.jobId))
                        case None => []
                        case Some(payload) => [Message(Some(r.fingerprint), payload)]
  {
  }

  /** The key-order invariant of ScenarioEncodingFailure survives one
      more request, the third one sending nothing. */
  lemma KeysAfterStep(sends: seq<Message>, n: nat, next: seq<Message>, batch: seq<Request>)
    requires n < 5 && |batch| == 5 && |sends| == (if n <= 2 then n else n - 1)
    requires forall k :: 0 <= k < |sends| ==> sends[k].key == Some(batch[if k < 2 then k else k + 1].fingerprint)
    requires n == 2 ==> next == sends
    requires n != 2 ==> exists p :: next == sends + [Message(Some(batch[n].fingerprint), p)]
    ensures forall k :: 0 <= k < |next| ==> next[k].key == Some(batch[if k < 2 then k else k + 1].fingerprint)
  {
  }

  /** Five requests, none blacklisted, keyed by fingerprint, the third of
      which fails to encode: four messages go out, keyed by the other four
      fingerprints in order, and all five are counted. */
  lemma ScenarioEncodingFailure(cfg: Config, batch: seq<Request>)
    requires cfg.blacklist == {} && cfg.strategy == ByFingerprint && |batch| == 5
    requires forall i :: 0 <= i < 5 ==> (cfg.encode(Tag(batch[i], cfg.jobId)).None? <==> i == 2)
    ensures Process(cfg, batch).fault == None && Process(cfg, batch).count == 5
    ensures |Process(cfg, batch).sends| == 4
    ensures forall k :: 0 <= k < 4 ==>
              Process(cfg, batch).sends[k].key == Some(batch[if k < 2 then k else k + 1].fingerprint)
  {
    var t := Tally([], 0, None);
    assert batch[..0] == [];
    for n := 0 to 5
      invariant t == Process(cfg, batch[..n])
      invariant t.fault == None && t.count == n && |t.sends| == (if n <= 2 then n else n - 1)
      invariant forall k :: 0 <= k < |t.sends| ==> t.sends[k].key == Some(batch[if k < 2 then k else k + 1].fingerprint)
    {
      ProcessPrefix(cfg, batch, n);
      assert Passes(cfg, batch[n]);
      FingerprintStep(cfg, t, batch[n]);
      assert cfg.encode(Tag(batch[n], cfg.jobId)).None? <==> n == 2;
      KeysAfterStep(t.sends, n, Step(cfg, t, batch[n]).sends, batch);
      t := Step(cfg, t, batch[n]);
    }
    assert batch[..5] == batch;
  }

  /** A batch whose every request encodes has no encoding failures. */
  lemma {:induction false} NoEncodingFailures(cfg: Config, batch: seq<Request>)
    requires forall i :: 0 <= i < |batch| ==> cfg.encode(Tag(batch[i], cfg.jobId)).Some?
    ensures EncodingFailures(cfg, batch) == []
  {
    if batch != [] {
      assert forall i :: 0 <= i < |batch[1..]| ==> batch[1..][i] == batch[i + 1];
      NoEncodingFailures(cfg, batch[1..]);
    }
  }

  /** Under the fingerprint strategy, a request that encodes yields one
      message, keyed by its fingerprint, exactly when it passes. */
  lemma FingerprintItem(cfg: Config, r: Request)
    requires cfg.strategy == ByFingerprint && cfg.encode(Tag(r, cfg.jobId)).Some?
    ensures ItemMessages(cfg, r) ==
              if Passes(cfg, r) then [Message(Some(r.fingerprint), cfg.encode(Tag(r, cfg.jobId)).value)] else []
  {
  }

  lemma ConsIndex<T>(x: T, xs: seq<T>)
    ensures forall k :: 1 <= k < |xs| + 1 ==> ([x] + xs)[k] == xs[k - 1]
  {
  }

  /** Under the fingerprint strategy, when every request encodes, each
      admitted request yields one message, in backend order, keyed by its
      fingerprint. */
  lemma {:induction false} FingerprintMessages(cfg: Config, batch: seq<Request>)
    requires cfg.strategy == ByFingerprint
    requires forall r :: r in batch ==> cfg.encode(Tag(r, cfg.jobId)).Some?
    ensures |Messages(cfg, batch)| == |Admitted(cfg, batch)|
    ensures forall k :: 0 <= k < |Messages(cfg, batch)| ==>
              Messages(cfg, batch)[k].key == Some(Admitted(cfg, batch)[k].fingerprint)
  {
    if batch != [] {
      var r, rest := batch[0], batch[1..];
      assert forall x :: x in rest ==> x in batch;
      FingerprintMessages(cfg, rest);
      FingerprintItem(cfg, r);
      var ms, adm := Messages(cfg, rest), Admitted(cfg, rest);
      if Passes(cfg, r) {
        var m := Message(Some(r.fingerprint), cfg.encode(Tag(r, cfg.jobId)).value);
        assert Messages(cfg, batch) == [m] + ms;
        assert Admitted(cfg, batch) == [r] + adm;
        ConsIndex(m, ms);
        ConsIndex(r, adm);
      } else {
        assert Messages(cfg, batch) == ms;
        assert Admitted(cfg, batch) == adm;
      }
    }
  }


  /** Ten requests keyed by fingerprint, two of which the blacklist drops
      and all of which encode: eight requests pass, eight messages go out,
      keyed by the fingerprints of the passing requests in backend order,
      and eight are counted. */
  lemma ScenarioBlacklisted(cfg: Config, batch: seq<Request>)
    requires cfg.strategy == ByFingerprint && |batch| == 10
    requires forall i :: 0 <= i < 10 ==> IsDomainBlacklisted(cfg.blacklist, cfg.parse, batch[i]).Value?
    requires forall i :: 0 <= i < 10 ==> cfg.encode(Tag(batch[i], cfg.jobId)).Some?
    requires |Dropped(cfg, batch)| == 2
    ensures Process(cfg, batch).fault == None && Process(cfg, batch).count == 8
    ensures |Process(cfg, batch).sends| == 8 && |Admitted(cfg, batch)| == 8
    ensures forall k :: 0 <= k < 8 ==>
              Process(cfg, batch).sends[k].key == Some(Admitted(cfg, batch)[k].fingerprint)
  {
    assert NoFaults(cfg, batch);
    ProcessFaultFree(cfg, batch);
    ProcessMatchesReference(cfg, batch);
    AdmittedOrDropped(cfg, batch);
    FingerprintMessages(cfg, batch);
  }
}
