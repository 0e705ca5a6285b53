/** The bounded fallback streams of src/modules/ai/image-result-fallback-core.ts:188-286. Each method
    is what runs between two awaits, so any interleaving of any number of streams is a sequence of
    calls; network answers and chunk sizes are arguments. */
module StreamOpener {
  import opened JsonValues

  /** An answer's headers; sizes are `None` when the header is absent or not a number. */
  datatype Response = Response(status: nat, hasLocation: bool, length: Option<nat>, rangeTotal: Option<nat>,
                               hasBody: bool, encoded: bool)
  datatype Phase = Connecting(redirects: nat) | Sniffing | Streaming | Ended | Failed
  datatype Step = Yielded(size: nat) | Done | Threw | Waiting

  const PREFIX_BYTES: nat := 32
  const MAX_REDIRECTS: nat := 3

  function Sum(sizes: seq<nat>): nat {
    if sizes == [] then 0 else sizes[0] + Sum(sizes[1..])
  }

  lemma {:induction false} SumAppended(sizes: seq<nat>, size: nat)
    ensures Sum(sizes + [size]) == Sum(sizes) + size
  {
    if sizes == [] {
      assert sizes + [size] == [size];
    } else {
      assert (sizes + [size])[1..] == sizes[1..] + [size];
      SumAppended(sizes[1..], size);
    }
  }

  lemma SumUnfolds(sizes: seq<nat>)
    ensures Sum(sizes) == if sizes == [] then 0 else sizes[0] + Sum(sizes[1..])
  {
  }

  /** The answer is no complete image, announces too much, or has no body. */
  predicate Unreadable(probe: bool, response: Response, maxBytes: nat) {
    || response.status !in (if probe then {200, 206} else {200})
    || (response.length.Some? && response.length.value > maxBytes)
    || (response.rangeTotal.Some? && response.rangeTotal.value > maxBytes)
    || !response.hasBody
  }

  /** The variables one call of `openSource` closes over. */
  class Source {
    const probe: bool
    var closed: bool
    var phase: Phase
    var initial: seq<nat>
    var total: nat
    var length: Option<nat>
    ghost var yielded: nat
    ghost var fetches: nat

    constructor (probe: bool)
      ensures !closed && phase == Connecting(0) && fetches == 1 && yielded == 0 && initial == [] && total == 0
    {
      this.probe := probe;
      closed, phase, initial, total, length := false, Connecting(0), [], 0, None;
      yielded, fetches := 0, 1;
    }

    /** Bounded whatever happens: fetches, bytes read before the first yield, bytes yielded. */
    ghost predicate Bounded(maxBytes: nat)
      reads this
    {
      && 1 <= fetches <= MAX_REDIRECTS + 1 && (phase.Connecting? ==> fetches == phase.redirects + 1)
      && yielded <= maxBytes
      && (phase.Connecting? ==> total == 0 && initial == [])
      && (phase.Connecting? || phase.Sniffing? ==> yielded == 0)
      && (phase.Sniffing? || phase.Streaming? ==> yielded + Sum(initial) == total <= maxBytes)
      && (phase.Ended? || phase.Failed? ==> closed)
      && (phase.Ended? && length.Some? ==> yielded == length.value)
    }
  }

  class Opener {
    const maxConcurrent: nat
    const maxBytes: nat
    var activeRequests: int
    ghost var sources: set<Source>
    ghost var unclosed: set<Source>

    constructor (maxConcurrent: nat, maxBytes: nat)
      ensures Valid() && sources == {} && this.maxConcurrent == maxConcurrent && this.maxBytes == maxBytes
    {
      this.maxConcurrent, this.maxBytes := maxConcurrent, maxBytes;
      activeRequests, sources, unclosed := 0, {}, {};
    }

    /** The counter is the number of sources not yet closed, and never exceeds the limit. */
    ghost predicate Valid()
      reads this, sources
    {
      && unclosed <= sources && (forall s :: s in sources ==> (s in unclosed <==> !s.closed))
      && activeRequests == |unclosed| <= maxConcurrent
      && (forall s :: s in sources ==> s.Bounded(maxBytes))
    }

    /** Admission: refused exactly when the limit is reached. */
    method Admit(probe: bool) returns (source: Source?)
      requires Valid()
      modifies this
      ensures Valid()
      ensures source == null <==> old(activeRequests) >= maxConcurrent
      ensures source == null ==> activeRequests == old(activeRequests) && sources == old(sources)
      ensures source != null ==>
                fresh(source) && activeRequests == old(activeRequests) + 1
                && sources == old(sources) + {source}
    {
      if activeRequests >= maxConcurrent {
        return null;
      }
      activeRequests := activeRequests + 1;
      source := new Source(probe);
      sources, unclosed := sources + {source}, unclosed + {source};
    }

    /** `close`: gives the slot back once, however often it is called. */
    method Close(source: Source)
      requires Valid() && source in sources
      modifies this`activeRequests, this`unclosed, source`closed
      ensures Valid() && source.closed
      ensures activeRequests == old(activeRequests) - if old(source.closed) then 0 else 1
    {
      if source.closed {
        return;
      }
      source.closed := true;
      activeRequests := activeRequests - 1;
      unclosed := unclosed - {source};
    }

    /** `catch (error) { close(); throw error; }` and the failing `finally` of the generator. */
    method Fail(source: Source) returns (step: Step)
      requires Valid() && source in sources
      modifies this`activeRequests, this`unclosed, source`closed, source`phase
      ensures Valid() && step == Threw && source.closed && source.phase == Failed
      ensures activeRequests == old(activeRequests) - if old(source.closed) then 0 else 1
    {
      Close(source);
      source.phase := Failed;
      step := Threw;
    }

    /** One answer to the GET: a redirect is followed at most three times, and nothing that announces
        more than the limit is read. */
    method OnResponse(source: Source, response: Response) returns (step: Step)
      requires Valid() && source in sources && source.phase.Connecting?
      modifies this`activeRequests, this`unclosed, source
      ensures Valid()
      ensures step == Threw <==> source.closed && source.phase == Failed
      ensures step == Threw <==>
                if 300 <= response.status < 400
                then !response.hasLocation || old(source.phase.redirects) == MAX_REDIRECTS
                else Unreadable(source.probe, response, maxBytes)
      ensures step != Threw ==>
                && step == Waiting && source.closed == old(source.closed)
                && if 300 <= response.status < 400
                   then source.phase == Connecting(old(source.phase.redirects) + 1)
                        && source.fetches == old(source.fetches) + 1
                   else source.phase == Sniffing && source.fetches == old(source.fetches)
                        && source.length == if response.encoded then None else response.length
    {
      if 300 <= response.status < 400 {
        if !response.hasLocation || source.phase.redirects == MAX_REDIRECTS {
          step := Fail(source);
          return;
        }
        source.phase := Connecting(source.phase.redirects + 1);
        source.fetches := source.fetches + 1;
        return Waiting;
      }
      if response.status != 200 && !(source.probe && response.status == 206) {
        step := Fail(source);
        return;
      }
      if (response.length.Some? && response.length.value > maxBytes)
         || (response.rangeTotal.Some? && response.rangeTotal.value > maxBytes) || !response.hasBody {
        step := Fail(source);
        return;
      }
      source.phase := Sniffing;
      source.length := if response.encoded then None else response.length;
      step := Waiting;
    }

    /** One turn of `while (initialSize < 32)`; `image` says whether the prefix read so far is one. */
    method ReadPrefix(source: Source, chunk: Option<nat>, image: bool) returns (step: Step)
      requires Valid() && source in sources && source.phase.Sniffing? && source.total < PREFIX_BYTES
      modifies this`activeRequests, this`unclosed, source
      ensures Valid()
      ensures source.phase.Streaming? ==> image && (chunk.None? || source.total >= PREFIX_BYTES)
      ensures step != Threw ==>
                && step == Waiting && source.length == old(source.length)
                && source.total == old(source.total) + (if chunk.Some? then chunk.value else 0)
                && (source.phase.Sniffing? <==> chunk.Some? && source.total < PREFIX_BYTES)
                && (source.phase.Streaming? <==> chunk.None? || source.total >= PREFIX_BYTES)
      ensures step == Threw <==>
                || (chunk.Some? && old(source.total) + chunk.value > maxBytes)
                || (!image && (chunk.None? || old(source.total) + chunk.value >= PREFIX_BYTES))
      ensures step != Threw ==> source.initial == old(source.initial) + if chunk.Some? then [chunk.value] else []
    {
      hide Sum;
      if chunk.Some? {
        SumAppended(source.initial, chunk.value);
        if source.total + chunk.value > maxBytes {
          step := Fail(source);
          return;
        }
        source.initial := source.initial + [chunk.value];
        source.total := source.total + chunk.value;
        if source.total < PREFIX_BYTES {
          return Waiting;
        }
      }
      if !image {
        step := Fail(source);
        return;
      }
      source.phase := Streaming;
      step := Waiting;
    }

    /** `for (const chunk of initial) yield chunk` */
    method Replay(source: Source) returns (step: Step)
      requires Valid() && source in sources && source.phase.Streaming? && source.initial != []
      modifies source`initial, source`yielded
      ensures Valid() && step == Yielded(old(source.initial)[0])
      ensures source.initial == old(source.initial)[1..] && source.yielded == old(source.yielded) + step.size
    {
      hide Sum;
      SumUnfolds(source.initial);
      step := Yielded(source.initial[0]);
      source.initial := source.initial[1..];
      source.yielded := source.yielded + step.size;
    }

    /** One turn of the body's loop after the prefix: within the limit and, when it is known, of
        exactly the announced length in all. */
    method Pull(source: Source, chunk: Option<nat>) returns (step: Step)
      requires Valid() && source in sources && source.phase.Streaming? && source.initial == []
      modifies this`activeRequests, this`unclosed, source
      ensures Valid()
      ensures source.yielded == old(source.yielded) + if step.Yielded? then step.size else 0
      ensures chunk.Some? ==>
                step == if old(source.yielded) + chunk.value > maxBytes then Threw else Yielded(chunk.value)
      ensures chunk.None? ==>
                var short := old(source.length).Some? && old(source.length).value != source.yielded;
                step == if short then Threw else Done
      ensures step == Done || step == Threw ==> source.closed
      ensures source.phase == if step == Done then Ended else if step == Threw then Failed else Streaming
    {
      hide Sum;
      SumUnfolds(source.initial);
      if chunk.None? {
        if source.length.Some? && source.total != source.length.value {
          step := Fail(source);
          return;
        }
        Close(source);
        source.phase := Ended;
        return Done;
      }
      if source.total + chunk.value > maxBytes {
        step := Fail(source);
        return;
      }
      source.total := source.total + chunk.value;
      source.yielded := source.yielded + chunk.value;
      step := Yielded(chunk.value);
    }
  }
}
