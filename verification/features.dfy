/** Feature extraction of the rating model (`AdRatingModel.extract_features`,
    src/ml_model.py:41-58): a fold over a recorded action sequence that fills
    a by-name feature dictionary and lists its values in schema order. */
module Features {
  import opened Wrappers
  import opened Actions

  const ScrollDistanceKey: string := "scroll_distance"
  const TimeSpentKey: string := "time_spent"
  const ClickCountKey: string := "click_count"

  /** The feature schema: slot i of every feature vector holds the feature
      named FeatureNames[i]. */
  const FeatureNames: seq<string> := [
    ScrollDistanceKey,
    TimeSpentKey,
    ClickCountKey,
    "ad_position",
    "image_present",
    "video_present",
    "text_length"
  ]

  type FeatureDict = map<string, int>
  type FeatureVector = seq<int>

  /** Python's `abs` raising on a non-numeric scroll amount. */
  datatype ExtractError = AmountNotNumeric

  // ---------------------------------------------------------------------
  // Reference definitions: what each feature means for a whole sequence.
  // ---------------------------------------------------------------------

  /** What one scroll action adds to the scroll distance: the absolute value
      of its amount, 0 when it has none, an error when the amount is not a number. */
  function ScrollMagnitude(p: Params): (r: Result<nat, ExtractError>)
    ensures r.Failure? <==> AmountKey in p && p[AmountKey].Str?
    ensures AmountKey !in p ==> r == Success(0)
    ensures AmountKey in p && p[AmountKey].Num? ==>
      r.Success? && (r.value == p[AmountKey].n || r.value == -p[AmountKey].n)
  {
    if AmountKey !in p then Success(0)
    else match p[AmountKey]
      case Num(n) => Success(if n < 0 then -n else n)
      case Str(_) => Failure(AmountNotNumeric)
  }

  /** Every scroll action's amount is absent or numeric, so extraction cannot raise. */
  predicate AmountsNumeric(s: seq<Action>)
  {
    forall a | a in s :: a.kind == ScrollKind ==> ScrollMagnitude(a.params).Success?
  }

  /** The scroll distance one action contributes (0 for every non-scroll action). */
  function Magnitude(a: Action): nat
  {
    if a.kind != ScrollKind then 0
    else match ScrollMagnitude(a.params)
      case Success(m) => m
      case Failure(_) => 0
  }

  /** Sum of |amount| over the scroll actions of `s`. */
  function ScrollDistance(s: seq<Action>): nat
  {
    if |s| == 0 then 0 else Magnitude(s[0]) + ScrollDistance(s[1..])
  }

  function ClickOne(a: Action): nat
  {
    if a.kind == ClickKind then 1 else 0
  }

  /** Number of click actions of `s`. */
  function ClickCount(s: seq<Action>): (r: nat)
    ensures r <= |s|
  {
    if |s| == 0 then 0 else ClickOne(s[0]) + ClickCount(s[1..])
  }

  /** Last timestamp minus first for sequences of two or more actions, else 0.
      No absolute value is taken. */
  function TimeSpent(s: seq<Action>): int
  {
    if |s| > 1 then s[|s| - 1].timestamp - s[0].timestamp else 0
  }

  // ---------------------------------------------------------------------
  // The extraction as the source writes it: a dictionary fold.
  // ---------------------------------------------------------------------

  predicate Complete(d: FeatureDict)
  {
    forall n | n in FeatureNames :: n in d
  }

  /** The starting dictionary: every schema name mapped to 0. */
  function ZeroFeatures(): FeatureDict
  {
    map n | n in FeatureNames :: 0
  }

  /** The dictionary's values in schema order; keys are never added after
      construction, so their insertion order is the schema order. */
  function Values(d: FeatureDict): FeatureVector
    requires Complete(d)
  {
    seq(|FeatureNames|, i requires 0 <= i < |FeatureNames| => d[FeatureNames[i]])
  }

  /** One iteration of the loop body: count a scroll or a click, then overwrite
      time_spent from the whole sequence's end points when it has two or more
      actions. */
  function Step(d: FeatureDict, a: Action, whole: seq<Action>): (r: Result<FeatureDict, ExtractError>)
    requires Complete(d)
    ensures r.Failure? <==> a.kind == ScrollKind && ScrollMagnitude(a.params).Failure?
    ensures r.Success? ==> r.value.Keys == d.Keys
  {
    var counted: Result<FeatureDict, ExtractError> :=
      if a.kind == ScrollKind then
        match ScrollMagnitude(a.params)
        case Success(m) => Success(d[ScrollDistanceKey := d[ScrollDistanceKey] + m])
        case Failure(e) => Failure(e)
      else if a.kind == ClickKind then
        Success(d[ClickCountKey := d[ClickCountKey] + 1])
      else
        Success(d);
    var d1 :- counted;
    if |whole| > 1 then
      Success(d1[TimeSpentKey := whole[|whole| - 1].timestamp - whole[0].timestamp])
    else
      Success(d1)
  }

  /** The loop over the remaining actions `rest` of the sequence `whole`. */
  function Run(d: FeatureDict, rest: seq<Action>, whole: seq<Action>): (r: Result<FeatureDict, ExtractError>)
    requires Complete(d)
    ensures r.Success? <==> AmountsNumeric(rest)
    ensures r.Success? ==> r.value.Keys == d.Keys
    decreases |rest|
  {
    if |rest| == 0 then Success(d)
    else
      var d1 :- Step(d, rest[0], whole);
      Run(d1, rest[1..], whole)
  }

  /** `d2` is `d` after folding `rest`: the two counters advanced by the
      reference sums, time_spent set when any action was processed of a
      sequence of two or more, every other feature untouched. */
  ghost predicate Folded(d: FeatureDict, d2: FeatureDict, rest: seq<Action>, whole: seq<Action>)
  {
    && Complete(d)
    && d2.Keys == d.Keys
    && d2[ScrollDistanceKey] == d[ScrollDistanceKey] + ScrollDistance(rest)
    && d2[ClickCountKey] == d[ClickCountKey] + ClickCount(rest)
    && d2[TimeSpentKey] == (if |rest| > 0 && |whole| > 1 then TimeSpent(whole) else d[TimeSpentKey])
    && forall n | n in d && n != ScrollDistanceKey && n != ClickCountKey && n != TimeSpentKey :: d2[n] == d[n]
  }

  lemma {:induction false} RunMeaning(d: FeatureDict, rest: seq<Action>, whole: seq<Action>)
    requires Complete(d)
    ensures Run(d, rest, whole).Success? <==> AmountsNumeric(rest)
    ensures Run(d, rest, whole).Success? ==> Folded(d, Run(d, rest, whole).value, rest, whole)
    decreases |rest|
  {
    if |rest| > 0 {
      var a := rest[0];
      assert rest == [a] + rest[1..];
      match Step(d, a, whole)
      case Failure(e) =>
        assert a.kind == ScrollKind && ScrollMagnitude(a.params).Failure?;
      case Success(d1) =>
        RunMeaning(d1, rest[1..], whole);
    }
  }

  /** `extract_features`: the feature vector of an action sequence, in schema
      order; fails exactly when some scroll amount is not a number. */
  function Extract(actions: seq<Action>): (r: Result<FeatureVector, ExtractError>)
    ensures r.Success? <==> AmountsNumeric(actions)
    ensures r.Success? ==> |r.value| == |FeatureNames|
    ensures r.Success? ==>
      r.value == [ScrollDistance(actions), TimeSpent(actions), ClickCount(actions), 0, 0, 0, 0]
  {
    ZeroFeaturesComplete();
    RunMeaning(ZeroFeatures(), actions, actions);
    var d :- Run(ZeroFeatures(), actions, actions);
    FoldedVector(d, actions);
    Success(Values(d))
  }

  lemma ZeroFeaturesComplete()
    ensures Complete(ZeroFeatures())
    ensures forall n | n in FeatureNames :: ZeroFeatures()[n] == 0
  {
  }

  /** The three counted features are distinct from the four never-written ones. */
  lemma UnwrittenNames()
    ensures forall i | 3 <= i < |FeatureNames| ::
      FeatureNames[i] != ScrollDistanceKey && FeatureNames[i] != ClickCountKey && FeatureNames[i] != TimeSpentKey
  {
    assert FeatureNames[3][0] != ClickCountKey[0];
    assert FeatureNames[6][0] != ClickCountKey[0];
  }

  /** Listing the folded dictionary in schema order gives the reference vector. */
  lemma FoldedVector(d: FeatureDict, s: seq<Action>)
    requires Folded(ZeroFeatures(), d, s, s)
    ensures Complete(d)
    ensures Values(d) == [ScrollDistance(s), TimeSpent(s), ClickCount(s), 0, 0, 0, 0]
  {
    var z := ZeroFeatures();
    UnwrittenNames();
    var expected := [ScrollDistance(s), TimeSpent(s), ClickCount(s), 0, 0, 0, 0];
    assert forall i | 0 <= i < |FeatureNames| :: d[FeatureNames[i]] == expected[i] by {
      forall i | 0 <= i < |FeatureNames|
        ensures d[FeatureNames[i]] == expected[i]
      {
        if i >= 3 {
          assert d[FeatureNames[i]] == z[FeatureNames[i]];
        }
      }
    }
    var v := Values(d);
    assert forall i | 0 <= i < |v| :: v[i] == expected[i];
  }

  // ---------------------------------------------------------------------
  // Properties of the features.
  // ---------------------------------------------------------------------

  /** The empty sequence extracts to the all-zero vector without error. */
  lemma ExtractEmpty()
    ensures Extract([]) == Success([0, 0, 0, 0, 0, 0, 0])
  {
  }

  /** The scroll distance is additive over concatenation. */
  lemma {:induction false} ScrollDistanceAppend(s: seq<Action>, t: seq<Action>)
    ensures ScrollDistance(s + t) == ScrollDistance(s) + ScrollDistance(t)
    decreases |s|
  {
    if |s| > 0 {
      assert (s + t)[1..] == s[1..] + t;
      ScrollDistanceAppend(s[1..], t);
    } else {
      assert s + t == t;
    }
  }

  /** The click count is additive over concatenation. */
  lemma {:induction false} ClickCountAppend(s: seq<Action>, t: seq<Action>)
    ensures ClickCount(s + t) == ClickCount(s) + ClickCount(t)
    decreases |s|
  {
    if |s| > 0 {
      assert (s + t)[1..] == s[1..] + t;
      ClickCountAppend(s[1..], t);
    } else {
      assert s + t == t;
    }
  }

  /** Appending an action of any type other than scroll or click leaves
      both counters unchanged. */
  lemma OtherKindsIgnored(s: seq<Action>, a: Action)
    requires a.kind != ScrollKind && a.kind != ClickKind
    ensures ScrollDistance(s + [a]) == ScrollDistance(s)
    ensures ClickCount(s + [a]) == ClickCount(s)
    ensures AmountsNumeric(s + [a]) <==> AmountsNumeric(s)
  {
    ScrollDistanceSnoc(s, a);
    ClickCountSnoc(s, a);
    AmountsNumericSnoc(s, a);
  }

  /** Appending one action makes time_spent its timestamp minus the first
      action's (0 when it is the only action). */
  lemma TimeSpentSnoc(s: seq<Action>, a: Action)
    ensures TimeSpent(s + [a]) == (if |s| == 0 then 0 else a.timestamp - s[0].timestamp)
  {
    var t := s + [a];
    assert t[|t| - 1] == a;
    if |s| > 0 {
      assert t[0] == s[0];
    }
  }

  /** Appending one action adds its scroll magnitude (0 unless it is a scroll
      with a numeric amount) to the scroll distance. */
  lemma ScrollDistanceSnoc(s: seq<Action>, a: Action)
    ensures ScrollDistance(s + [a]) == ScrollDistance(s) + Magnitude(a)
  {
    ScrollDistanceAppend(s, [a]);
    assert ScrollDistance([a]) == Magnitude(a) + ScrollDistance([a][1..]);
    assert [a][1..] == [];
  }

  /** Appending one action adds one click exactly when it is a click. */
  lemma ClickCountSnoc(s: seq<Action>, a: Action)
    ensures ClickCount(s + [a]) == ClickCount(s) + ClickOne(a)
  {
    ClickCountAppend(s, [a]);
    assert ClickCount([a]) == ClickOne(a) + ClickCount([a][1..]);
    assert [a][1..] == [];
  }

  /** Appending one action keeps extraction error-free iff its amount is usable. */
  lemma AmountsNumericSnoc(s: seq<Action>, a: Action)
    ensures AmountsNumeric(s + [a]) <==>
      AmountsNumeric(s) && (a.kind == ScrollKind ==> ScrollMagnitude(a.params).Success?)
  {
    assert forall x | x in s + [a] :: x in s || x == a;
    assert a in s + [a];
    assert forall x | x in s :: x in s + [a];
  }

  /** A single action never yields a positive time_spent; two actions out of
      timestamp order yield a negative one. */
  lemma TimeSpentOrder(first: Action, last: Action)
    ensures TimeSpent([first]) == 0
    ensures TimeSpent([first, last]) < 0 <==> last.timestamp < first.timestamp
  {
  }
}
