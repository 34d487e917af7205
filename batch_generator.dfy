/**
 The batch generator of the DB worker: the component that, once per call of
 `Run`, moves a bounded batch of requests from the backend to the spider
 feed. Its collaborators appear as follows: the spider feed's answer to
 "which partitions are writable" and the backend's answer to the pull are
 arguments of `Run`; the URL parser and the encoder are function-valued
 fields; the producer is the log `sends`; the worker's statistics are the
 four counter fields.
 */
module BatchGenerators {

  import opened Wrappers
  import opened Text
  import opened Requests
  import opened KeySelection
  import opened Blacklist
  import opened Cycle

  /** One call of the backend's `get_next_requests`. */
  datatype Pull = Pull(limit: int, partitions: set<int>)

  /** How a call of `Run` ends: returning True (nothing was generated),
      returning None after a stats update, or with an exception. */
  datatype RunResult = Idle | Completed | Aborted(fault: Fault)

  class BatchGenerator {
    const domainsBlacklist: set<string>
    const keyStrategy: KeyStrategy
    const parse: string -> HostParse
    const encoder: Request -> Option<seq<byte>>
    const maxNextRequests: int

    /** The worker's current job id. */
    var jobId: int
    /** The event that disables batch generation, set and cleared by RPC. */
    var disabled: bool

    /** Calls of the spider feed's `available_partitions`. */
    var partitionQueries: nat
    /** Calls of the backend's `get_next_requests`, in order. */
    var pulls: seq<Pull>
    /** The messages handed to the spider-feed producer, in order. */
    var sends: seq<Message>
    /** Calls of the producer's `close`. */
    var producerCloses: nat

    var pushedSinceStart: int
    var batchesAfterStart: int
    var lastBatchSize: int
    var lastBatchGenerated: Option<string>

    /** What the loop of `Run` reads from the generator. */
    function Settings(): (cfg: Config)
      reads this
      ensures cfg.blacklist == domainsBlacklist && cfg.strategy == keyStrategy
      ensures cfg.jobId == jobId
    {
      Config(domainsBlacklist, keyStrategy, parse, encoder, jobId)
    }

    /** The generator of a worker; an absent blacklist means none. The key
        strategy is fixed here: by hostname when hostname partitioning is
        configured, by fingerprint otherwise. */
    constructor (hostnamePartitioning: bool, blacklist: Option<set<string>>, maxNextRequests: int,
                 parse: string -> HostParse, encoder: Request -> Option<seq<byte>>, jobId: int)
      ensures keyStrategy == (if hostnamePartitioning then ByHostname else ByFingerprint)
      ensures domainsBlacklist == (if blacklist.Some? then blacklist.value else {})
      ensures this.maxNextRequests == maxNextRequests && this.parse == parse && this.encoder == encoder
      ensures this.jobId == jobId && !disabled
      ensures partitionQueries == 0 && pulls == [] && sends == [] && producerCloses == 0
      ensures pushedSinceStart == 0 && batchesAfterStart == 0 && lastBatchSize == 0
      ensures lastBatchGenerated == None
    {
      keyStrategy := if hostnamePartitioning then ByHostname else ByFingerprint;
      domainsBlacklist := if blacklist.Some? then blacklist.value else {};
      this.maxNextRequests := maxNextRequests;
      this.parse := parse;
      this.encoder := encoder;
      this.jobId := jobId;
      disabled := false;
      partitionQueries, pulls, sends, producerCloses := 0, [], [], 0;
      pushedSinceStart, batchesAfterStart, lastBatchSize := 0, 0, 0;
      lastBatchGenerated := None;
    }

    /** Whether the worker's statistics are as they were. */
    twostate predicate StatsUnchanged()
      reads this
    {
      && pushedSinceStart == old(pushedSinceStart)
      && batchesAfterStart == old(batchesAfterStart)
      && lastBatchSize == old(lastBatchSize)
      && lastBatchGenerated == old(lastBatchGenerated)
    }

    /** One dispatch cycle. `partitions` is what the spider feed reports as
        writable, `batch` what the backend returns for the pull, and `now`
        the wall-clock time of the stats update. */
    method Run(partitions: set<int>, batch: seq<Request>, now: string) returns (result: RunResult)
      modifies this`partitionQueries, this`pulls, this`sends
      modifies this`pushedSinceStart, this`batchesAfterStart, this`lastBatchSize, this`lastBatchGenerated
      // disabled: nothing is asked of any collaborator
      ensures old(disabled) ==>
                result == Idle && partitionQueries == old(partitionQueries) && pulls == old(pulls)
                && sends == old(sends) && StatsUnchanged()
      // enabled: the writable partitions are asked for exactly once
      ensures !old(disabled) ==> partitionQueries == old(partitionQueries) + 1
      // no writable partition: no pull, no send, no stats update
      ensures !old(disabled) && partitions == {} ==>
                result == Idle && pulls == old(pulls) && sends == old(sends) && StatsUnchanged()
      // otherwise one pull for at most maxNextRequests requests, scoped to
      // exactly the writable partitions, and the loop's sends in order
      ensures !old(disabled) && partitions != {} ==>
                && pulls == old(pulls) + [Pull(maxNextRequests, partitions)]
                && sends == old(sends) + Process(Settings(), batch).sends
      // an exception leaves no stats update
      ensures !old(disabled) && partitions != {} && Process(Settings(), batch).fault.Some? ==>
                result == Aborted(Process(Settings(), batch).fault.value) && StatsUnchanged()
      // nothing counted: no stats update
      ensures !old(disabled) && partitions != {} && Process(Settings(), batch).fault.None?
              && Process(Settings(), batch).count == 0 ==>
                result == Idle && StatsUnchanged()
      // something counted: exactly one stats update with that count
      ensures !old(disabled) && partitions != {} && Process(Settings(), batch).fault.None?
              && Process(Settings(), batch).count > 0 ==>
                && result == Completed
                && pushedSinceStart == old(pushedSinceStart) + Process(Settings(), batch).count
                && batchesAfterStart == old(batchesAfterStart) + 1
                && lastBatchSize == Process(Settings(), batch).count
                && lastBatchGenerated == Some(now)
      ensures result == Completed ==> 0 < lastBatchSize <= |batch|
    {
      if disabled {
        return Idle;
      }
      partitionQueries := partitionQueries + 1;
      if partitions == {} {
        return Idle;
      }
      pulls := pulls + [Pull(maxNextRequests, partitions)];

      var count, fault := PushBatch(batch);
      if fault.Some? {
        return Aborted(fault.value);
      }
      if count == 0 {
        return Idle;
      }
      pushedSinceStart := pushedSinceStart + count;
      batchesAfterStart := batchesAfterStart + 1;
      lastBatchSize := count;
      lastBatchGenerated := Some(now);
      return Completed;
    }

    /** The loop of `Run`: each request of the batch, in backend order, is
        filtered, tagged, encoded and sent; `count` is the loop's local
        counter and `fault` the exception that ended the loop, if any. */
    method PushBatch(batch: seq<Request>) returns (count: nat, fault: Option<Fault>)
      modifies this`sends
      ensures sends == old(sends) + Process(Settings(), batch).sends
      ensures count == Process(Settings(), batch).count && fault == Process(Settings(), batch).fault
      ensures count <= |batch|
    {
      ghost var cfg := Settings();
      ghost var t := Tally([], 0, None);
      count := 0;
      var i := 0;
      assert batch[..0] == [];
      while i < |batch|
        invariant 0 <= i <= |batch|
        invariant t == Process(cfg, batch[..i]) && t.fault.None?
        invariant sends == old(sends) + t.sends && count == t.count
      {
        var request := batch[i];
        ProcessPrefix(cfg, batch, i);
        t := Step(cfg, t, request);
        var verdict := IsDomainBlacklisted(domainsBlacklist, parse, request);
        if verdict.Raised? {
          AbortedAt(cfg, batch, i);
          return count, Some(verdict.fault);
        }
        if !verdict.value {
          var tagged := Tag(request, jobId);
          var encoded := encoder(tagged);
          if encoded.Some? {
            var key := KeyFor(keyStrategy, parse, tagged);
            if key.Raised? {
              count := count + 1;
              AbortedAt(cfg, batch, i);
              return count, Some(key.fault);
            }
            sends := sends + [Message(key.value, encoded.value)];
          }
          count := count + 1;
        }
        i := i + 1;
      }
      assert batch[..i] == batch;
      fault := None;
    }

    /** Shuts the generator down by closing the producer. */
    method Close()
      modifies this`producerCloses
      ensures producerCloses == old(producerCloses) + 1
    {
      producerCloses := producerCloses + 1;
    }
  }
}
