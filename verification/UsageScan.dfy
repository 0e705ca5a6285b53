/** Usage timing statistics: the keyset scans of src/modules/admin/usage-diagnostics.ts and the
    collector of src/modules/admin/usage-diagnostics-core.ts. */
module UsageScan {
  import opened JsonValues
  import opened Keyset

  const PAGE_SIZE: nat := 500
  const SCAN_LIMIT: nat := 100000
  const DAY_MS := 86400000
  const OFFSET_MS := 8 * 3600000
  const IMAGE_CAPABILITIES := ["IMAGE", "IMAGE_NANO_BANANA", "IMAGE_NANO_BANANA_2", "IMAGE_NANO_BANANA_PRO_FAST",
                               "IMAGE_NANO_BANANA_2_FAST", "IMAGE_NANO_BANANA_PRO_1K", "IMAGE_NANO_BANANA_DUAL_2K",
                               "IMAGE_GPT", "IMAGE_GPT_1K", "IMAGE_GROK"]

  datatype Modality = Image | Words | Video
  datatype Counter = Counter(samples: nat, missing: nat, totalMs: nat)
  datatype ModelCounter = ModelCounter(modality: Modality, key: string, displayName: string, counter: Counter)
  datatype Bucket = Bucket(samples: nat, missing: nat, averageMs: Option<nat>)

  /** One row of either table; `createdAt` of the request decides the window, that of the row itself
      is in its key. An absent text is empty. */
  datatype Row = Row(succeeded: bool, capability: string, requestedAt: int, completedAt: Option<int>,
                     canonicalKey: string, canonicalName: string, logicalModel: string)
  datatype Sample = Sample(modality: Modality, modelKey: string, displayName: string, duration: Option<nat>)
  datatype Window = Window(from: int, to: int, asOf: int)

  datatype Scan = Complete | RangeTooLarge

  // ---- the day window ------------------------------------------------------------------------

  /** `usageDiagnosticsRange`; times are milliseconds, days are those of UTC+8. */
  function UsageRange(days: int, now: int): Option<Window> {
    if days < 1 || days > 30 then None
    else
      var today := (now + OFFSET_MS) / DAY_MS * DAY_MS - OFFSET_MS;
      Some(Window(today + DAY_MS - days * DAY_MS, today + DAY_MS, now))
  }

  predicate InWindow(window: Window, at: int) {
    window.from <= at < window.to && at <= window.asOf
  }

  /** The window is the asked number of whole UTC+8 days, today included, up to this moment. */
  lemma RangeCoversDays(days: int, now: int, at: int)
    requires 1 <= days <= 30
    ensures var day := (t: int) => (t + OFFSET_MS) / DAY_MS;
            InWindow(UsageRange(days, now).value, at) <==> at <= now && day(now) - days < day(at) <= day(now)
  {
  }

  // ---- durations and averages ----------------------------------------------------------------

  /** `usageDurationMs` */
  function Duration(start: int, end: Option<int>, asOf: int): Option<nat> {
    if end.None? || end.value < start || end.value > asOf then None else Some(end.value - start)
  }

  /** `Math.round(total / samples)` */
  function Rounded(total: nat, samples: nat): nat
    requires samples > 0
  {
    (2 * total + samples) / (2 * samples)
  }

  function Serialized(counter: Counter): Bucket {
    var average := if counter.samples > 0 then Some(Rounded(counter.totalMs, counter.samples)) else None;
    Bucket(counter.samples, counter.missing, average)
  }

  function Plus(left: Counter, right: Counter): Counter {
    Counter(left.samples + right.samples, left.missing + right.missing, left.totalMs + right.totalMs)
  }

  function One(duration: Option<nat>): Counter {
    match duration case None => Counter(0, 1, 0) case Some(ms) => Counter(1, 0, ms)
  }

  /** One line of the reported models. */
  datatype Listing = Listing(modality: Modality, key: string, displayName: string, bucket: Bucket)

  function ListingOf(model: ModelCounter): Listing {
    Listing(model.modality, model.key, model.displayName, Serialized(model.counter))
  }

  const ZERO := Counter(0, 0, 0)

  /** A sample of this modality, and of this model of it if one is named. */
  predicate Of(s: Sample, modality: Modality, key: Option<string>) {
    s.modality == modality && (key.None? || key.value == s.modelKey)
  }

  /** The samples of a modality, or of one model of it, counted one by one. */
  function Count(fed: seq<Sample>, modality: Modality, key: Option<string>): Counter {
    if fed == [] then ZERO
    else
      var (rest, last) := (Count(fed[..|fed| - 1], modality, key), fed[|fed| - 1]);
      if Of(last, modality, key) then Plus(rest, One(last.duration)) else rest
  }

  function SumOf(models: seq<ModelCounter>, modality: Modality): Counter {
    if models == [] then ZERO
    else
      var (rest, last) := (SumOf(models[..|models| - 1], modality), models[|models| - 1]);
      if last.modality == modality then Plus(rest, last.counter) else rest
  }

  lemma {:induction false} SumUpdated(models: seq<ModelCounter>, i: nat, duration: Option<nat>, modality: Modality)
    requires i < |models|
    ensures var updated := models[i := models[i].(counter := Plus(models[i].counter, One(duration)))];
            SumOf(updated, modality)
            == if models[i].modality == modality then Plus(SumOf(models, modality), One(duration))
               else SumOf(models, modality)
  {
    var updated := models[i := models[i].(counter := Plus(models[i].counter, One(duration)))];
    var n := |models| - 1;
    if i < n {
      SumUpdated(models[..n], i, duration, modality);
      assert updated[..n] == models[..n][i := updated[i]];
    } else {
      assert updated[..n] == models[..n];
    }
  }

  /** A rounded average lies between any two bounds of its samples. */
  lemma {:induction false} AverageBetween(fed: seq<Sample>, modality: Modality, key: Option<string>, low: nat,
                                          high: nat)
    requires forall s :: s in fed && Of(s, modality, key) && s.duration.Some? ==> low <= s.duration.value <= high
    requires Count(fed, modality, key).samples > 0
    ensures low <= Serialized(Count(fed, modality, key)).averageMs.value <= high
  {
    TotalBetween(fed, modality, key, low, high);
    var c := Count(fed, modality, key);
    RoundedBetween(c.totalMs, c.samples, low, high);
  }

  lemma Distribute(n: nat, k: nat)
    ensures (n + 1) * k == n * k + k
  {
  }

  lemma {:induction false} TotalBetween(fed: seq<Sample>, modality: Modality, key: Option<string>, low: nat, high: nat)
    requires forall s :: s in fed && Of(s, modality, key) && s.duration.Some? ==> low <= s.duration.value <= high
    ensures var c := Count(fed, modality, key); c.samples * low <= c.totalMs <= c.samples * high
  {
    if fed != [] {
      var rest := fed[..|fed| - 1];
      assert fed[|fed| - 1] in fed;
      TotalBetween(rest, modality, key, low, high);
      var (c, before) := (Count(fed, modality, key), Count(rest, modality, key));
      Distribute(before.samples, low);
      Distribute(before.samples, high);
      assert c.samples == before.samples ==> c.totalMs == before.totalMs;
      assert c.samples != before.samples ==>
               c.samples == before.samples + 1 && before.totalMs + low <= c.totalMs <= before.totalMs + high;
    }
  }

  lemma RoundedBetween(total: nat, samples: nat, low: nat, high: nat)
    requires samples > 0 && samples * low <= total <= samples * high
    ensures low <= Rounded(total, samples) <= high
  {
    var (n, d) := (2 * total + samples, 2 * samples);
    assert d * low == 2 * (samples * low) && d * high == 2 * (samples * high);
    assert d * low <= n < d * high + d;
    QuotientBetween(n, d, low, high);
  }

  /** The reported average is the whole number nearest to the quotient, upwards from the middle. */
  lemma RoundedIsNearest(counter: Counter)
    ensures Serialized(counter).averageMs.Some? <==> counter.samples > 0
    ensures counter.samples > 0 ==>
              var (average, n) := (Serialized(counter).averageMs.value, counter.samples);
              2 * n * average <= 2 * counter.totalMs + n < 2 * n * average + 2 * n
  {
    if counter.samples > 0 {
      var (a, d) := (2 * counter.totalMs + counter.samples, 2 * counter.samples);
      assert a == d * (a / d) + a % d;
    }
  }

  lemma MultiplesGrow(d: nat, a: nat, b: nat)
    requires a <= b
    ensures d * a <= d * b
  {
  }

  lemma QuotientBetween(n: nat, d: nat, low: nat, high: nat)
    requires d > 0 && d * low <= n < d * high + d
    ensures low <= n / d <= high
  {
    var q := n / d;
    assert n == d * q + n % d;
    if q < low {
      MultiplesGrow(d, q + 1, low);
      assert false;
    }
    if q > high {
      MultiplesGrow(d, high + 1, q);
      assert false;
    }
  }

  /** Samples and missing samples of a modality in the reported models. */
  function ListedCount(listed: seq<Listing>, modality: Modality): (nat, nat) {
    if listed == [] then (0, 0)
    else
      var (rest, last) := (ListedCount(listed[..|listed| - 1], modality), listed[|listed| - 1]);
      if last.modality == modality then (rest.0 + last.bucket.samples, rest.1 + last.bucket.missing) else rest
  }

  lemma {:induction false} ListedAddsUp(models: seq<ModelCounter>, listed: seq<Listing>, modality: Modality)
    requires |listed| == |models| && forall i :: 0 <= i < |listed| ==> listed[i] == ListingOf(models[i])
    ensures ListedCount(listed, modality) == (SumOf(models, modality).samples, SumOf(models, modality).missing)
  {
    if listed != [] {
      ListedAddsUp(models[..|models| - 1], listed[..|listed| - 1], modality);
    }
  }

  /** A sample with a duration counts once and adds it, one without counts as missing, and another model's
      or modality's counts for nothing. */
  lemma CountGrows(fed: seq<Sample>, s: Sample, modality: Modality, key: Option<string>)
    ensures var (before, after) := (Count(fed, modality, key), Count(fed + [s], modality, key));
            if s.modality != modality || (key.Some? && s.modelKey != key.value) then after == before
            else
              && after.samples == before.samples + (if s.duration.Some? then 1 else 0)
              && after.missing == before.missing + (if s.duration.Some? then 0 else 1)
              && after.totalMs == before.totalMs + (if s.duration.Some? then s.duration.value else 0)
    ensures Count([], modality, key) == Counter(0, 0, 0)
  {
  }

  // ---- the collector -------------------------------------------------------------------------

  lemma CountOneMore(fed: seq<Sample>, sample: Sample)
    ensures forall m ::
              Count(fed + [sample], m, None)
              == if m == sample.modality then Plus(Count(fed, m, None), One(sample.duration)) else Count(fed, m, None)
  {
  }

  ghost predicate HasModel(models: seq<ModelCounter>, modality: Modality, key: string) {
    exists i :: 0 <= i < |models| && models[i].modality == modality && models[i].key == key
  }

  /** Every model seen has exactly one counter, and it is what counting its samples one by one gives. */
  ghost predicate ModelsSound(fed: seq<Sample>, models: seq<ModelCounter>) {
    && (forall i :: 0 <= i < |models| ==> models[i].counter == Count(fed, models[i].modality, Some(models[i].key)))
    && (forall i, j :: 0 <= i < j < |models| ==>
        models[i].modality != models[j].modality || models[i].key != models[j].key)
    && (forall s :: s in fed ==> HasModel(models, s.modality, s.modelKey))
  }

  lemma {:induction false} NeverSeen(fed: seq<Sample>, models: seq<ModelCounter>, modality: Modality, key: string)
    requires forall s :: s in fed ==> HasModel(models, s.modality, s.modelKey)
    requires !HasModel(models, modality, key)
    ensures Count(fed, modality, Some(key)) == ZERO
  {
    if fed != [] {
      assert fed[|fed| - 1] in fed;
      NeverSeen(fed[..|fed| - 1], models, modality, key);
    }
  }

  /** The n-th sample is the first of its model. */
  ghost predicate FirstOf(fed: seq<Sample>, n: int, modality: Modality, key: string) {
    && 0 <= n < |fed| && Of(fed[n], modality, Some(key))
    && forall j :: 0 <= j < n ==> !Of(fed[j], modality, Some(key))
  }

  ghost predicate CarriesName(fed: seq<Sample>, modality: Modality, key: string, displayName: string) {
    exists n :: FirstOf(fed, n, modality, key) && displayName == fed[n].displayName
  }

  /** Every model carries the name of its first sample. */
  ghost predicate NamedFirst(fed: seq<Sample>, models: seq<ModelCounter>) {
    forall i :: 0 <= i < |models| ==> CarriesName(fed, models[i].modality, models[i].key, models[i].displayName)
  }

  lemma NameStays(fed: seq<Sample>, sample: Sample, modality: Modality, key: string, displayName: string)
    requires CarriesName(fed, modality, key, displayName)
    ensures CarriesName(fed + [sample], modality, key, displayName)
  {
    var n :| FirstOf(fed, n, modality, key) && displayName == fed[n].displayName;
    assert FirstOf(fed + [sample], n, modality, key);
  }

  lemma NameIsNew(fed: seq<Sample>, models: seq<ModelCounter>, sample: Sample)
    requires forall s :: s in fed ==> HasModel(models, s.modality, s.modelKey)
    requires !HasModel(models, sample.modality, sample.modelKey)
    ensures CarriesName(fed + [sample], sample.modality, sample.modelKey, sample.displayName)
  {
    var longer := fed + [sample];
    forall j | 0 <= j < |fed|
      ensures !Of(longer[j], sample.modality, Some(sample.modelKey))
    {
      assert fed[j] in fed;
    }
    assert FirstOf(longer, |fed|, sample.modality, sample.modelKey);
  }

  /** The names after one more sample, of a known model or of a new one. */
  lemma NamesAdded(fed: seq<Sample>, models: seq<ModelCounter>, i: nat, sample: Sample, updated: seq<ModelCounter>)
    requires NamedFirst(fed, models) && (forall s :: s in fed ==> HasModel(models, s.modality, s.modelKey))
    requires |updated| == if i < |models| then |models| else |models| + 1
    requires forall j :: 0 <= j < |models| ==>
               && updated[j].modality == models[j].modality && updated[j].key == models[j].key
               && updated[j].displayName == models[j].displayName
    requires i == |models| ==>
               && !HasModel(models, sample.modality, sample.modelKey) && updated[i].modality == sample.modality
               && updated[i].key == sample.modelKey && updated[i].displayName == sample.displayName
    requires i <= |models|
    ensures NamedFirst(fed + [sample], updated)
  {
    hide CarriesName, HasModel;
    forall j | 0 <= j < |updated|
      ensures CarriesName(fed + [sample], updated[j].modality, updated[j].key, updated[j].displayName)
    {
      if j < |models| {
        NameStays(fed, sample, models[j].modality, models[j].key, models[j].displayName);
      } else {
        NameIsNew(fed, models, sample);
      }
    }
  }

  /** A model seen for the first time starts from nothing. */
  lemma {:induction false} NewModel(fed: seq<Sample>, models: seq<ModelCounter>, unseen: ModelCounter)
    requires ModelsSound(fed, models) && !HasModel(models, unseen.modality, unseen.key) && unseen.counter == ZERO
    ensures ModelsSound(fed, models + [unseen])
    ensures forall m :: SumOf(models + [unseen], m) == SumOf(models, m)
  {
    var longer := models + [unseen];
    NeverSeen(fed, models, unseen.modality, unseen.key);
    assert longer[..|models|] == models;
    forall s | s in fed
      ensures HasModel(longer, s.modality, s.modelKey)
    {
      var i :| 0 <= i < |models| && models[i].modality == s.modality && models[i].key == s.modelKey;
      assert longer[i] == models[i];
    }
  }

  /** Counting one more sample of a known model. */
  lemma {:induction false} KnownModel(fed: seq<Sample>, models: seq<ModelCounter>, i: nat, sample: Sample)
    requires ModelsSound(fed, models) && i < |models|
    requires models[i].modality == sample.modality && models[i].key == sample.modelKey
    ensures var updated := models[i := models[i].(counter := Plus(models[i].counter, One(sample.duration)))];
            && ModelsSound(fed + [sample], updated)
            && forall m ::
                 SumOf(updated, m)
                 == if m == sample.modality then Plus(SumOf(models, m), One(sample.duration)) else SumOf(models, m)
  {
    var updated := models[i := models[i].(counter := Plus(models[i].counter, One(sample.duration)))];
    var longer := fed + [sample];
    assert longer[..|fed|] == fed;
    forall m
      ensures SumOf(updated, m)
           == if m == sample.modality then Plus(SumOf(models, m), One(sample.duration)) else SumOf(models, m)
    {
      SumUpdated(models, i, sample.duration, m);
    }
    forall s | s in longer
      ensures HasModel(updated, s.modality, s.modelKey)
    {
      if s in fed {
        var j :| 0 <= j < |models| && models[j].modality == s.modality && models[j].key == s.modelKey;
        assert updated[j].modality == s.modality && updated[j].key == s.modelKey;
      } else {
        assert updated[i].modality == s.modality && updated[i].key == s.modelKey;
      }
    }
  }

  /** One line for each model fed, under the name of its first sample, with the numbers of counting its
      samples one by one. */
  ghost predicate ListsModels(fed: seq<Sample>, listed: seq<Listing>) {
    && (forall i :: 0 <= i < |listed| ==>
        && listed[i].bucket == Serialized(Count(fed, listed[i].modality, Some(listed[i].key)))
        && CarriesName(fed, listed[i].modality, listed[i].key, listed[i].displayName))
    && (forall i, j :: 0 <= i < j < |listed| ==>
        listed[i].modality != listed[j].modality || listed[i].key != listed[j].key)
    && (forall s :: s in fed ==>
        exists i :: 0 <= i < |listed| && listed[i].modality == s.modality && listed[i].key == s.modelKey)
  }

  lemma ListingSound(fed: seq<Sample>, models: seq<ModelCounter>, listed: seq<Listing>)
    requires ModelsSound(fed, models) && NamedFirst(fed, models)
    requires |listed| == |models| && forall i :: 0 <= i < |listed| ==> listed[i] == ListingOf(models[i])
    ensures ListsModels(fed, listed)
  {
    hide Count, Serialized, CarriesName;
    forall s | s in fed
      ensures exists i :: 0 <= i < |listed| && listed[i].modality == s.modality && listed[i].key == s.modelKey
    {
      var i :| 0 <= i < |models| && models[i].modality == s.modality && models[i].key == s.modelKey;
      assert listed[i].modality == s.modality && listed[i].key == s.modelKey;
    }
  }

  /** The average on any reported line lies between any bounds of its model's samples. */
  lemma ListedAverageBetween(fed: seq<Sample>, listed: seq<Listing>, i: nat, low: nat, high: nat)
    requires ListsModels(fed, listed) && i < |listed| && listed[i].bucket.averageMs.Some?
    requires forall s :: s in fed && Of(s, listed[i].modality, Some(listed[i].key)) && s.duration.Some? ==>
                           low <= s.duration.value <= high
    ensures low <= listed[i].bucket.averageMs.value <= high
  {
    AverageBetween(fed, listed[i].modality, Some(listed[i].key), low, high);
  }

  lemma ModelsCover(fed: seq<Sample>, models: seq<ModelCounter>)
    requires ModelsSound(fed, models)
    ensures forall s :: s in fed ==> HasModel(models, s.modality, s.modelKey)
  {
  }

  lemma Unseen(models: seq<ModelCounter>, modality: Modality, key: string)
    requires forall j :: 0 <= j < |models| ==> models[j].modality != modality || models[j].key != key
    ensures !HasModel(models, modality, key)
  {
  }

  /** `createUsageTimingCollector` */
  class Collector {
    const asOf: int
    ghost var fed: seq<Sample>
    var image: Counter
    var words: Counter
    var video: Counter
    var models: seq<ModelCounter>

    constructor (asOf: int)
      ensures Valid() && fed == [] && this.asOf == asOf
    {
      this.asOf := asOf;
      fed, models := [], [];
      image, words, video := ZERO, ZERO, ZERO;
    }

    /** `totals[modality]` */
    function Total(modality: Modality): Counter
      reads this
    {
      match modality case Image => image case Words => words case Video => video
    }

    /** Every counter is what counting the samples one by one gives, and the totals of a modality are
        the sum over its models. */
    ghost predicate Valid()
      reads this
    {
      && (forall m :: Total(m) == Count(fed, m, None) && Total(m) == SumOf(models, m))
      && ModelsSound(fed, models) && NamedFirst(fed, models)
    }

    method Add(succeeded: bool, modality: Modality, modelKey: string, displayName: string, createdAt: int,
               completedAt: Option<int>)
      requires Valid()
      modifies this
      ensures Valid()
      ensures var sample := Sample(modality, modelKey, displayName, Duration(createdAt, completedAt, asOf));
              fed == old(fed) + if succeeded then [sample] else []
    {
      hide ModelsSound, Count, SumOf, Duration, Plus, One, NamedFirst, HasModel;
      if !succeeded {
        return;
      }
      var duration := Duration(createdAt, completedAt, asOf);
      ghost var sample := Sample(modality, modelKey, displayName, duration);
      var i := 0;
      while i < |models| && (models[i].modality != modality || models[i].key != modelKey)
        invariant 0 <= i <= |models|
        invariant forall j :: 0 <= j < i ==> models[j].modality != modality || models[j].key != modelKey
      {
        i := i + 1;
      }
      ghost var known := models;
      ModelsCover(fed, models);
      if i == |models| {
        Unseen(models, modality, modelKey);
        NewModel(fed, models, ModelCounter(modality, modelKey, displayName, ZERO));
        models := models + [ModelCounter(modality, modelKey, displayName, ZERO)];
      }
      KnownModel(fed, models, i, sample);
      match modality {
        case Image => image := Plus(image, One(duration));
        case Words => words := Plus(words, One(duration));
        case Video => video := Plus(video, One(duration));
      }
      models := models[i := models[i].(counter := Plus(models[i].counter, One(duration)))];
      NamesAdded(fed, known, i, sample, models);
      CountOneMore(fed, sample);
      fed := fed + [sample];
    }

    /** `result`, without the order of the models. */
    method Result() returns (image: Bucket, words: Bucket, video: Bucket, listed: seq<Listing>)
      requires Valid()
      ensures image == Serialized(Count(fed, Image, None)) && words == Serialized(Count(fed, Words, None))
      ensures video == Serialized(Count(fed, Video, None))
      ensures ListsModels(fed, listed)
      ensures forall m :: ListedCount(listed, m) == (Count(fed, m, None).samples, Count(fed, m, None).missing)
    {
      hide ModelsSound, Count, SumOf, Serialized, ListsModels, NamedFirst;
      assert forall m :: Total(m) == Count(fed, m, None);
      assert Total(Image) == this.image && Total(Words) == this.words && Total(Video) == this.video;
      image, words, video := Serialized(this.image), Serialized(this.words), Serialized(this.video);
      listed := [];
      while |listed| < |models|
        invariant |listed| <= |models| && forall i :: 0 <= i < |listed| ==> listed[i] == ListingOf(models[i])
      {
        listed := listed + [ListingOf(models[|listed|])];
      }
      ListingSound(fed, models, listed);
      forall m
        ensures ListedCount(listed, m) == (Count(fed, m, None).samples, Count(fed, m, None).missing)
      {
        ListedAddsUp(models, listed, m);
        assert Total(m) == Count(fed, m, None) && Total(m) == SumOf(models, m);
      }
    }
  }

  // ---- the scans -----------------------------------------------------------------------------

  /** `timingModality` */
  function TimingModality(capability: string): Option<Modality> {
    if capability == "IMAGE" || "IMAGE_" <= capability then Some(Image)
    else if capability == "LLM" || capability == "VISION" then Some(Words)
    else if capability == "VIDEO" || capability == "VIDEO_MINIMAX" then Some(Video)
    else None
  }

  function ModelKey(row: Row): string {
    if row.canonicalKey != "" then row.canonicalKey else if row.logicalModel != "" then row.logicalModel else "unknown"
  }

  function DisplayName(row: Row): string {
    if row.canonicalName != "" then row.canonicalName
    else if row.logicalModel != "" then row.logicalModel
    else "未知模型"
  }

  datatype Table = Requests | VideoTasks

  /** The `where` clause of a scan, without its cursor. */
  predicate Wanted(table: Table, window: Window, row: Row) {
    && row.succeeded && InWindow(window, row.requestedAt)
    && (table.Requests? ==>
          row.capability in IMAGE_CAPABILITIES || row.capability == "LLM" || row.capability == "VISION")
  }

  function Matching(table: Table, window: Window, rows: seq<Keyed<Row>>): seq<Keyed<Row>> {
    if rows == [] then []
    else if Wanted(table, window, rows[0].row) then [rows[0]] + Matching(table, window, rows[1..])
    else Matching(table, window, rows[1..])
  }

  lemma {:induction false} MatchingOrdered(table: Table, window: Window, rows: seq<Keyed<Row>>)
    requires Ordered(rows, Descending)
    ensures Ordered(Matching(table, window, rows), Descending)
    ensures forall row :: row in Matching(table, window, rows) <==> row in rows && Wanted(table, window, row.row)
  {
    if rows != [] {
      MatchingOrdered(table, window, rows[1..]);
      assert rows == [rows[0]] + rows[1..];
      var rest := Matching(table, window, rows[1..]);
      forall j | 0 <= j < |rest|
        ensures Precedes(Descending, rows[0].key, rest[j].key)
      {
        assert rest[j] in rows[1..];
      }
    }
  }

  /** What one row adds to the statistics. A request row of no timed modality, or of a video, adds nothing. */
  function SamplesOf(table: Table, asOf: int, row: Keyed<Row>): seq<Sample> {
    var modality := if table.VideoTasks? then Some(Video) else TimingModality(row.row.capability);
    if modality.None? || (table.Requests? && modality == Some(Video)) || !row.row.succeeded then []
    else [Sample(modality.value, ModelKey(row.row), DisplayName(row.row),
                 Duration(row.key.at, row.row.completedAt, asOf))]
  }

  function AllSamples(table: Table, asOf: int, rows: seq<Keyed<Row>>): seq<Sample> {
    if rows == [] then [] else AllSamples(table, asOf, rows[..|rows| - 1]) + SamplesOf(table, asOf, rows[|rows| - 1])
  }

  lemma WantedCounts(table: Table, window: Window, row: Keyed<Row>)
    requires Wanted(table, window, row.row)
    ensures |SamplesOf(table, window.asOf, row)| == 1
  {
  }

  /** What a wanted row adds: a sample of its modality, under the key and name its catalog entry has, or else
      its logical model, with the time from its creation to its completion if that lies in between. */
  lemma SampleOfWanted(table: Table, window: Window, row: Keyed<Row>)
    requires Wanted(table, window, row.row)
    ensures |SamplesOf(table, window.asOf, row)| == 1
    ensures var (sample, r) := (SamplesOf(table, window.asOf, row)[0], row.row);
            && (sample.modality == Video <==> table == VideoTasks)
            && (sample.modality == Words <==> table == Requests && (r.capability == "LLM" || r.capability == "VISION"))
            && (r.canonicalKey != "" ==> sample.modelKey == r.canonicalKey)
            && (r.canonicalKey == "" && r.logicalModel != "" ==> sample.modelKey == r.logicalModel)
            && (r.canonicalName != "" ==> sample.displayName == r.canonicalName)
            && (r.canonicalName == "" && r.logicalModel != "" ==> sample.displayName == r.logicalModel)
            && (sample.duration.Some? <==>
                  r.completedAt.Some? && row.key.at <= r.completedAt.value <= window.asOf)
            && (sample.duration.Some? ==> row.key.at + sample.duration.value == r.completedAt.value)
  {
    assert "LLM"[0] == 'L' && "VISION"[0] == 'V' && "IMAGE_"[0] == 'I';
    forall capability | capability in IMAGE_CAPABILITIES
      ensures capability == "IMAGE" || "IMAGE_" <= capability
    {
    }
  }

  /** No wanted row is skipped on the way to the collector: each adds exactly one sample. */
  lemma {:induction false} EveryRowCounts(table: Table, window: Window, rows: seq<Keyed<Row>>)
    requires forall row :: row in rows ==> Wanted(table, window, row.row)
    ensures |AllSamples(table, window.asOf, rows)| == |rows|
    ensures forall i :: 0 <= i < |rows| ==>
              SamplesOf(table, window.asOf, rows[i]) == [AllSamples(table, window.asOf, rows)[i]]
  {
    hide Wanted, SamplesOf;
    if rows != [] {
      var last := rows[|rows| - 1];
      EveryRowCounts(table, window, rows[..|rows| - 1]);
      assert last in rows;
      WantedCounts(table, window, last);
    }
  }

  /** One of the two loops of `getAdminUsageMetrics` over a table that does not change meanwhile:
      every matching row is fed exactly once, in order, or the scan refuses; it refuses exactly when
      the limit is reached. */
  method ScanTable(collector: Collector, table: Table, window: Window, rows: seq<Keyed<Row>>) returns (scan: Scan)
    requires collector.Valid() && collector.asOf == window.asOf && Ordered(rows, Descending)
    modifies collector
    ensures collector.Valid()
    ensures scan.RangeTooLarge? <==> |Matching(table, window, rows)| >= SCAN_LIMIT
    ensures scan.Complete? ==>
              collector.fed == old(collector.fed) + AllSamples(table, window.asOf, Matching(table, window, rows))
  {
    hide Ordered, Wanted, AllSamples, SamplesOf, Matching, Beyond, Page;
    var found := Matching(table, window, rows);
    MatchingOrdered(table, window, rows);
    var count, after := 0, None;
    ghost var (base, pages) := (collector.fed, 0);
    assert AllSamples(table, window.asOf, []) == [] by { NoSamples(table, window.asOf); }
    while true
      invariant count <= |found| && count == PAGE_SIZE * pages && pages < SCAN_LIMIT / PAGE_SIZE
      invariant after == CursorAt(found, count)
      invariant collector.Valid() && collector.fed == base + AllSamples(table, window.asOf, found[..count])
      decreases |found| - count
    {
      var page := Page(found, after, Descending, PAGE_SIZE);
      PageContinues(found, count, Descending, PAGE_SIZE);
      FeedPage(collector, table, window, page, found, count, base);
      count, pages := count + |page|, pages + 1;
      if |page| < PAGE_SIZE {
        assert found[..count] == found;
        return Complete;
      }
      if count >= SCAN_LIMIT {
        return RangeTooLarge;
      }
      after := Some(page[|page| - 1].key);
    }
  }

  lemma NoSamples(table: Table, asOf: int)
    ensures AllSamples(table, asOf, []) == []
  {
  }

  lemma OneMoreRow(table: Table, asOf: int, rows: seq<Keyed<Row>>, n: nat)
    requires n < |rows|
    ensures AllSamples(table, asOf, rows[..n + 1])
         == AllSamples(table, asOf, rows[..n]) + SamplesOf(table, asOf, rows[n])
  {
    assert rows[..n + 1][..n] == rows[..n];
  }

  /** `for (const row of rows)`: the page that follows the first `count` rows found. */
  method FeedPage(collector: Collector, table: Table, window: Window, page: seq<Keyed<Row>>,
                  ghost found: seq<Keyed<Row>>, ghost count: nat, ghost base: seq<Sample>)
    requires collector.Valid() && collector.asOf == window.asOf
    requires count + |page| <= |found| && page == found[count..count + |page|]
    requires collector.fed == base + AllSamples(table, window.asOf, found[..count])
    modifies collector
    ensures collector.Valid() && collector.fed == base + AllSamples(table, window.asOf, found[..count + |page|])
  {
    hide AllSamples;
    for i := 0 to |page|
      invariant collector.Valid() && collector.fed == base + AllSamples(table, window.asOf, found[..count + i])
    {
      var row := page[i];
      var modality := if table.VideoTasks? then Some(Video) else TimingModality(row.row.capability);
      if modality.Some? && !(table.Requests? && modality == Some(Video)) {
        collector.Add(row.row.succeeded, modality.value, ModelKey(row.row), DisplayName(row.row), row.key.at,
                      row.row.completedAt);
      }
      OneMoreRow(table, window.asOf, found, count + i);
    }
  }

  datatype Usage = InvalidRange | TooLarge | Metrics(image: Bucket, words: Bucket, video: Bucket, listed: seq<Listing>)

  /** What the scans feed: one sample for each matching request and each matching video task. */
  function Fed(window: Window, requests: seq<Keyed<Row>>, videos: seq<Keyed<Row>>): seq<Sample> {
    AllSamples(Requests, window.asOf, Matching(Requests, window, requests))
    + AllSamples(VideoTasks, window.asOf, Matching(VideoTasks, window, videos))
  }

  /** `getAdminUsageMetrics`: never truncated statistics, and the totals of a modality are the sums
      over the models reported for it. */
  method GetUsageMetrics(requests: seq<Keyed<Row>>, videos: seq<Keyed<Row>>, days: int, now: int) returns (usage: Usage)
    requires Ordered(requests, Descending) && Ordered(videos, Descending)
    ensures usage.InvalidRange? <==> UsageRange(days, now).None?
    ensures usage.TooLarge? <==>
              && UsageRange(days, now).Some?
              && var window := UsageRange(days, now).value;
              |Matching(Requests, window, requests)| >= SCAN_LIMIT
              || |Matching(VideoTasks, window, videos)| >= SCAN_LIMIT
    ensures usage.Metrics? ==>
              var fed := Fed(UsageRange(days, now).value, requests, videos);
              && usage.image == Serialized(Count(fed, Image, None))
              && usage.words == Serialized(Count(fed, Words, None))
              && usage.video == Serialized(Count(fed, Video, None))
              && ListsModels(fed, usage.listed)
              && forall m :: ListedCount(usage.listed, m) == (Count(fed, m, None).samples, Count(fed, m, None).missing)
  {
    hide Ordered, Matching, AllSamples, Count, ListedCount, Serialized, ListsModels;
    var range := UsageRange(days, now);
    if range.None? {
      return InvalidRange;
    }
    var window := range.value;
    var collector := new Collector(window.asOf);
    var scan := ScanTable(collector, Requests, window, requests);
    if scan.RangeTooLarge? {
      return TooLarge;
    }
    scan := ScanTable(collector, VideoTasks, window, videos);
    if scan.RangeTooLarge? {
      return TooLarge;
    }
    assert collector.fed == Fed(window, requests, videos);
    var image, words, video, listed := collector.Result();
    usage := Metrics(image, words, video, listed);
  }
}
