/** The feedbacks of the libFuzzer compatibility runtime: the user-feature
    feedback (set-novelty and growth slots), the keep latch, and the
    crash-cause classifier that files an artifact and records why. */
module Feedbacks {
  import opened Common

  // ===================================================================
  // User-feature feedback
  // ===================================================================

  /** Slots below this index keep the set of every value seen. */
  const UNIQUE_SLOTS: nat := 8
  /** Slots from UNIQUE_SLOTS below this index keep a running maximum. */
  const SLOT_COUNT: nat := 16

  /** The two tables of a user-feature feedback, as a value. */
  datatype FeatureTables = FeatureTables(unique: map<nat, set<U64>>, growth: map<nat, U64>)

  /** The slot layout `new` fixes: keys 0 to 7 in the set table, keys 8 to 15
      in the maximum table, and no other keys. */
  ghost predicate WellFormed(t: FeatureTables) {
    && (forall k: nat :: k in t.unique <==> k < UNIQUE_SLOTS)
    && (forall k: nat :: k in t.growth <==> UNIQUE_SLOTS <= k < SLOT_COUNT)
  }

  function Max(a: U64, b: U64): U64 {
    if a < b then b else a
  }

  /** The slot indices from `lo` up to, not including, `hi`. */
  function SlotRange(lo: nat, hi: nat): (s: set<nat>)
    ensures forall k :: k in s <==> lo <= k < hi
    decreases hi - lo
  {
    if lo >= hi then {} else {lo} + SlotRange(lo + 1, hi)
  }

  /** The tables of a new feedback. */
  function Fresh(): (t: FeatureTables)
    ensures WellFormed(t)
    ensures forall k :: k in t.unique ==> t.unique[k] == {}
    ensures forall k :: k in t.growth ==> t.growth[k] == 0
  {
    FeatureTables(map k | k in SlotRange(0, UNIQUE_SLOTS) :: {},
                  map k | k in SlotRange(UNIQUE_SLOTS, SLOT_COUNT) :: 0)
  }

  /** One iteration of the loop in `is_interesting`: the tables after slot
      `index` has seen `feature`, and whether that slot found it new. */
  function Step(t: FeatureTables, index: nat, feature: U64): (r: (FeatureTables, bool))
    requires WellFormed(t) && index < SLOT_COUNT
    ensures WellFormed(r.0)
  {
    if index < UNIQUE_SLOTS then
      var seen := t.unique[index];
      (t.(unique := t.unique[index := seen + {feature}]), feature !in seen)
    else
      var current := t.growth[index];
      if feature > current then (t.(growth := t.growth[index := feature]), true)
      else (t, false)
  }

  /** The whole loop: the tables after every slot of `features` has been
      visited in order, and the accumulated verdict. No slot is skipped once
      the verdict is already true. */
  function Observe(t: FeatureTables, features: seq<U64>): (r: (FeatureTables, bool))
    requires WellFormed(t) && |features| <= SLOT_COUNT
    ensures WellFormed(r.0)
    decreases |features|
  {
    if features == [] then (t, false)
    else
      var last := |features| - 1;
      var (before, interesting) := Observe(t, features[..last]);
      var (after, novel) := Step(before, last, features[last]);
      (after, novel || interesting)
  }

  /** Slot `k` of `features` is new to the tables `t`: a value missing from
      the slot's set, or a value strictly above the slot's maximum. */
  ghost predicate NovelAt(t: FeatureTables, features: seq<U64>, k: nat)
    requires WellFormed(t) && k < |features| <= SLOT_COUNT
  {
    if k < UNIQUE_SLOTS then features[k] !in t.unique[k] else features[k] > t.growth[k]
  }

  /** A set slot ends up holding its old values plus the observed value. */
  lemma {:induction false} ObserveSetSlot(t: FeatureTables, features: seq<U64>, k: nat)
    requires WellFormed(t) && |features| <= SLOT_COUNT && k < UNIQUE_SLOTS
    ensures Observe(t, features).0.unique[k]
            == t.unique[k] + (if k < |features| then {features[k]} else {})
  {
    if features != [] {
      var last := |features| - 1;
      ObserveSetSlot(t, features[..last], k);
    }
  }

  /** A growth slot ends up holding the larger of its old maximum and the
      observed value; a value at or below the maximum leaves it alone. */
  lemma {:induction false} ObserveGrowthSlot(t: FeatureTables, features: seq<U64>, k: nat)
    requires WellFormed(t) && |features| <= SLOT_COUNT && UNIQUE_SLOTS <= k < SLOT_COUNT
    ensures Observe(t, features).0.growth[k]
            == if k < |features| then Max(t.growth[k], features[k]) else t.growth[k]
  {
    if features != [] {
      var last := |features| - 1;
      ObserveGrowthSlot(t, features[..last], k);
    }
  }

  /** The verdict is true exactly when some slot found its value new. */
  lemma {:induction false} ObserveVerdict(t: FeatureTables, features: seq<U64>)
    requires WellFormed(t) && |features| <= SLOT_COUNT
    ensures Observe(t, features).1 <==> exists k: nat :: k < |features| && NovelAt(t, features, k)
  {
    if features != [] {
      var last := |features| - 1;
      var prefix := features[..last];
      ObserveVerdict(t, prefix);
      var before := Observe(t, prefix).0;
      // The slot visited last is still as it was in `t` when the loop reaches it.
      if last < UNIQUE_SLOTS {
        ObserveSetSlot(t, prefix, last);
        assert before.unique[last] == t.unique[last];
      } else {
        ObserveGrowthSlot(t, prefix, last);
        assert before.growth[last] == t.growth[last];
      }
      assert Step(before, last, features[last]).1 == NovelAt(t, features, last);
      forall k: nat | k < last
        ensures NovelAt(t, prefix, k) == NovelAt(t, features, k)
      {
        assert prefix[k] == features[k];
      }
    }
  }

  /** Sets never shrink and maxima never fall. */
  lemma {:induction false} ObserveOnlyGrows(t: FeatureTables, features: seq<U64>)
    requires WellFormed(t) && |features| <= SLOT_COUNT
    ensures forall k: nat :: k < UNIQUE_SLOTS ==> t.unique[k] <= Observe(t, features).0.unique[k]
    ensures forall k: nat :: UNIQUE_SLOTS <= k < SLOT_COUNT ==>
              t.growth[k] <= Observe(t, features).0.growth[k]
  {
    forall k: nat | k < UNIQUE_SLOTS
      ensures t.unique[k] <= Observe(t, features).0.unique[k]
    {
      ObserveSetSlot(t, features, k);
    }
    forall k: nat | UNIQUE_SLOTS <= k < SLOT_COUNT
      ensures t.growth[k] <= Observe(t, features).0.growth[k]
    {
      ObserveGrowthSlot(t, features, k);
    }
  }

  /** Two executions against a fresh feedback, generalising the vectors
      [1,0,0,0,0,0,0,0, 5,0,...] and then [1,0,0,0,0,0,0,0, 10,0,...]: the
      first brings a new value to slot 0 and raises slot 8 above 0; the
      second repeats slot 0, which is no longer new, yet raises slot 8 again,
      so both are interesting. */
  lemma TwoExecutions(first: seq<U64>, second: seq<U64>)
    requires |first| == |second| == SLOT_COUNT
    requires first[0] == second[0] && 0 < first[8] < second[8]
    ensures var (after, interesting) := Observe(Fresh(), first);
            && interesting
            && after.growth[8] == first[8]
            && !NovelAt(after, second, 0)
            && Observe(after, second).1
  {
    var after := Observe(Fresh(), first).0;
    ObserveVerdict(Fresh(), first);
    assert NovelAt(Fresh(), first, 0);
    ObserveSetSlot(Fresh(), first, 0);
    ObserveGrowthSlot(Fresh(), first, 8);
    ObserveVerdict(after, second);
    assert NovelAt(after, second, 8);
  }

  /** Keeps, per set slot, every value seen and, per growth slot, the largest
      value seen. */
  class UserFeatureFeedback {
    var uniqueFeatures: map<nat, set<U64>>
    var growthFeatures: map<nat, U64>

    function Tables(): FeatureTables
      reads this
    {
      FeatureTables(uniqueFeatures, growthFeatures)
    }

    ghost predicate Valid()
      reads this
    {
      WellFormed(Tables())
    }

    /** Fills slots 0 to 7 with empty sets and slots 8 to 15 with 0. */
    constructor ()
      ensures Valid() && Tables() == Fresh()
    {
      var unique: map<nat, set<U64>> := map[];
      var i: nat := 0;
      while i < UNIQUE_SLOTS
        invariant i <= UNIQUE_SLOTS
        invariant unique == map k | k in SlotRange(0, i) :: {}
      {
        unique := unique[i := {}];
        i := i + 1;
      }
      var growth: map<nat, U64> := map[];
      i := UNIQUE_SLOTS;
      while i < SLOT_COUNT
        invariant UNIQUE_SLOTS <= i <= SLOT_COUNT
        invariant growth == map k | k in SlotRange(UNIQUE_SLOTS, i) :: 0
      {
        growth := growth[i := 0];
        i := i + 1;
      }
      uniqueFeatures := unique;
      growthFeatures := growth;
    }

    /** Visits every observed feature in order, updating its slot, and says
        whether any slot saw something new. A vector longer than SLOT_COUNT
        would make the slot lookup panic. */
    method IsInteresting(features: seq<U64>) returns (interesting: bool)
      requires Valid() && |features| <= SLOT_COUNT
      modifies this
      ensures Valid()
      ensures (Tables(), interesting) == Observe(old(Tables()), features)
      ensures forall k: nat :: k < UNIQUE_SLOTS ==>
                uniqueFeatures[k] == old(uniqueFeatures[k]) + (if k < |features| then {features[k]} else {})
      ensures forall k: nat :: UNIQUE_SLOTS <= k < SLOT_COUNT ==>
                growthFeatures[k]
                == if k < |features| then Max(old(growthFeatures[k]), features[k]) else old(growthFeatures[k])
      ensures interesting <==> exists k: nat :: k < |features| && NovelAt(old(Tables()), features, k)
    {
      ghost var start := Tables();
      interesting := false;
      var i: nat := 0;
      while i < |features|
        invariant i <= |features|
        invariant WellFormed(Tables())
        invariant (Tables(), interesting) == Observe(start, features[..i])
      {
        assert features[..i + 1][..i] == features[..i];
        var feature := features[i];
        if i < UNIQUE_SLOTS {
          var seen := uniqueFeatures[i];
          var isNew := feature !in seen;
          uniqueFeatures := uniqueFeatures[i := seen + {feature}];
          interesting := isNew || interesting;
        } else {
          var current := growthFeatures[i];
          if feature > current {
            interesting := true;
            growthFeatures := growthFeatures[i := feature];
          }
        }
        i := i + 1;
      }
      assert features[..i] == features;
      forall k: nat | k < UNIQUE_SLOTS
        ensures uniqueFeatures[k] == start.unique[k] + (if k < |features| then {features[k]} else {})
      {
        ObserveSetSlot(start, features, k);
      }
      forall k: nat | UNIQUE_SLOTS <= k < SLOT_COUNT
        ensures growthFeatures[k]
                == if k < |features| then Max(start.growth[k], features[k]) else start.growth[k]
      {
        ObserveGrowthSlot(start, features, k);
      }
      ObserveVerdict(start, features);
    }
  }

  // ===================================================================
  // Keep feedback
  // ===================================================================

  /** A latch that an outside decision sets (for instance a crash handler
      that wants the input retained); the feedback only reads it. */
  class LibfuzzerKeepFeedback {
    /** The shared cell; whoever holds the handle from `keep()` may set it. */
    var keep: bool

    constructor ()
      ensures !keep
    {
      keep := false;
    }

    /** Interesting exactly when the latch is set; the latch is not touched. */
    method IsInteresting() returns (interesting: bool)
      ensures interesting == keep
    {
      interesting := keep;
    }
  }

  // ===================================================================
  // Crash-cause feedback
  // ===================================================================

  /** Where artifacts go: a directory and a prefix for every file name. */
  datatype ArtifactPrefix = ArtifactPrefix(dir: string, filenamePrefix: string)

  /** The cause categories an artifact is filed under. */
  datatype Category = OomCategory | CrashCategory | TimeoutCategory | Uncategorized

  /** The word a category contributes to the artifact's file name. */
  function Label(c: Category): string {
    match c
    case OomCategory => "oom"
    case CrashCategory => "crash"
    case TimeoutCategory => "timeout"
    case Uncategorized => "uncategorized"
  }

  /** The category chosen, and the kind recorded in the testcase's metadata. */
  datatype Cause = Cause(category: Category, kind: ExitKind)

  /** The first-match decision of `append_metadata` over the stored exit
      kind and the out-of-memory probe. A Timeout is never filed as oom, and
      an Oom that the probe does not confirm is uncategorized. */
  function Classify(stored: ExitKind, oomed: bool): (c: Cause)
    ensures c.category == OomCategory <==> (stored == Crash || stored == Oom) && oomed
    ensures c.category == CrashCategory <==> stored == Crash && !oomed
    ensures c.category == TimeoutCategory <==> stored == Timeout
    ensures c.category == Uncategorized <==> stored == Ok || (stored == Oom && !oomed)
    ensures c.kind == if c.category == OomCategory then Oom else stored
  {
    if (stored == Crash || stored == Oom) && oomed then Cause(OomCategory, Oom)
    else match stored
      case Crash => Cause(CrashCategory, Crash)
      case Timeout => Cause(TimeoutCategory, Timeout)
      case _ => Cause(Uncategorized, stored)
  }

  /** `PathBuf::join` of a relative file name onto a directory. */
  function Join(dir: string, name: string): string {
    dir + "/" + name
  }

  /** `dir / (filename_prefix ++ tag ++ "-" ++ base)`. */
  function ArtifactPath(prefix: ArtifactPrefix, tag: string, base: string): string {
    Join(prefix.dir, prefix.filenamePrefix + tag + "-" + base)
  }

  /** The name an artifact is filed under: the testcase's own file name when
      it has one, else the name its loaded input generates. */
  function BaseName(filename: Option<string>, generatedName: Option<string>): (base: string)
    requires filename.Some? || generatedName.Some?
    ensures filename.Some? ==> base == filename.value
    ensures filename.None? ==> base == generatedName.value
  {
    if filename.Some? then filename.value else generatedName.value
  }

  /** The first letters of the four labels differ. */
  lemma LabelFirstLetter(c1: Category, c2: Category)
    requires Label(c1)[0] == Label(c2)[0]
    ensures c1 == c2
  {
  }

  /** An artifact path gives back both the category and the base name it was
      built from: no two causes or bases share a file. */
  lemma ArtifactPathInjective(prefix: ArtifactPrefix, c1: Category, base1: string,
                              c2: Category, base2: string)
    requires ArtifactPath(prefix, Label(c1), base1) == ArtifactPath(prefix, Label(c2), base2)
    ensures c1 == c2 && base1 == base2
  {
    var p1 := ArtifactPath(prefix, Label(c1), base1);
    var p2 := ArtifactPath(prefix, Label(c2), base2);
    var n := |prefix.dir| + 1 + |prefix.filenamePrefix|;
    assert p1[n] == Label(c1)[0];
    assert p2[n] == Label(c2)[0];
    LabelFirstLetter(c1, c2);
    assert base1 == p1[|p1| - |base1|..];
    assert base2 == p2[|p2| - |base2|..];
  }

  /** A testcase as far as the crash-cause feedback touches it. */
  class Testcase {
    var filename: Option<string>
    /** `generate_name(0)` of the loaded input; None when no input is loaded. */
    var generatedName: Option<string>
    var filePath: Option<string>
    /** The testcase's crash-cause metadata entry, if one is attached. */
    var crashCause: Option<ExitKind>

    constructor (filename: Option<string>, generatedName: Option<string>)
      ensures this.filename == filename && this.generatedName == generatedName
      ensures filePath == None && crashCause == None
    {
      this.filename := filename;
      this.generatedName := generatedName;
      filePath := None;
      crashCause := None;
    }
  }

  /** Remembers the exit kind of the last execution and, when a testcase is
      kept, files it under a path that names the cause. */
  class LibfuzzerCrashCauseFeedback {
    const artifactPrefix: ArtifactPrefix
    var exitKind: ExitKind

    constructor (artifactPrefix: ArtifactPrefix)
      ensures this.artifactPrefix == artifactPrefix && exitKind == Ok
    {
      this.artifactPrefix := artifactPrefix;
      exitKind := Ok;
    }

    /** Points the testcase's file path at `prefix`-`base` in the artifact
        directory; nothing else of the testcase changes. Without a file name
        and without a loaded input the source panics. */
    method SetFilename(prefix: string, testcase: Testcase)
      requires testcase.filename.Some? || testcase.generatedName.Some?
      modifies testcase`filePath
      ensures testcase.filePath
              == Some(ArtifactPath(artifactPrefix, prefix, BaseName(testcase.filename, testcase.generatedName)))
    {
      var base := if testcase.filename.Some? then testcase.filename.value else testcase.generatedName.value;
      var filePath := Join(artifactPrefix.dir, artifactPrefix.filenamePrefix + prefix + "-" + base);
      testcase.filePath := Some(filePath);
    }

    /** Records the exit kind; never interesting on its own. */
    method IsInteresting(exitKind: ExitKind) returns (interesting: bool)
      modifies this`exitKind
      ensures !interesting && this.exitKind == exitKind
    {
      this.exitKind := exitKind;
      interesting := false;
    }

    /** Files the testcase under the category the stored exit kind and the
        probe select and attaches the cause metadata. The file name and input
        it reads are left as they were, so a repeat call writes the same. */
    method AppendMetadata(testcase: Testcase, oomed: bool)
      requires testcase.filename.Some? || testcase.generatedName.Some?
      modifies testcase`filePath, testcase`crashCause
      ensures var cause := Classify(exitKind, oomed);
              && testcase.filePath
                 == Some(ArtifactPath(artifactPrefix, Label(cause.category),
                                      BaseName(testcase.filename, testcase.generatedName)))
              && testcase.crashCause == Some(cause.kind)
    {
      if (exitKind == Crash || exitKind == Oom) && oomed {
        SetFilename("oom", testcase);
        testcase.crashCause := Some(Oom);
      } else if exitKind == Crash {
        SetFilename("crash", testcase);
        testcase.crashCause := Some(Crash);
      } else if exitKind == Timeout {
        SetFilename("timeout", testcase);
        testcase.crashCause := Some(Timeout);
      } else {
        SetFilename("uncategorized", testcase);
        testcase.crashCause := Some(exitKind);
      }
    }
  }

  /** Classifying a kept testcase a second time, with the same stored kind and
      probe answer, leaves the same path and metadata as the first time. */
  method AppendMetadataIdempotent(feedback: LibfuzzerCrashCauseFeedback, testcase: Testcase, oomed: bool)
      returns (firstPath: Option<string>, firstCause: Option<ExitKind>, secondPath: Option<string>)
    requires testcase.filename.Some? || testcase.generatedName.Some?
    modifies testcase`filePath, testcase`crashCause
    ensures firstPath == secondPath == testcase.filePath
    ensures firstCause == testcase.crashCause == Some(Classify(feedback.exitKind, oomed).kind)
  {
    feedback.AppendMetadata(testcase, oomed);
    firstPath := testcase.filePath;
    firstCause := testcase.crashCause;
    feedback.AppendMetadata(testcase, oomed);
    secondPath := testcase.filePath;
  }
}
