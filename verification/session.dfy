/** The training corpus bookkeeping of `TrainingSession` (src/ml_model.py:106-150):
    two parallel lists of committed sequences and their ratings, plus the open
    sequence buffer that recorded actions are appended to. */
module Session {
  import opened Wrappers
  import opened Actions
  import opened Features

  /** `ratings` are whatever number the caller passed; nothing range-checks them. */
  datatype TrainingSession = TrainingSession(
    actionSequences: seq<seq<Action>>,
    ratings: seq<real>,
    currentSequence: seq<Action>)

  /** The corpus invariant every operation but a load keeps: the two lists
      run in parallel and no committed sequence is empty. */
  predicate Valid(s: TrainingSession)
  {
    && |s.actionSequences| == |s.ratings|
    && forall i | 0 <= i < |s.actionSequences| :: |s.actionSequences[i]| > 0
  }

  /** `TrainingSession.__init__`, without the rating model it also builds. */
  function NewSession(): TrainingSession
  {
    TrainingSession([], [], [])
  }

  /** The corpus of `t` extends the corpus of `s`: examples are only ever appended. */
  ghost predicate CorpusExtends(s: TrainingSession, t: TrainingSession)
  {
    && |s.actionSequences| <= |t.actionSequences|
    && |s.ratings| <= |t.ratings|
    && t.actionSequences[..|s.actionSequences|] == s.actionSequences
    && t.ratings[..|s.ratings|] == s.ratings
  }

  /** `start_sequence`: empties the open buffer; the corpus is untouched. */
  function StartSequence(s: TrainingSession): (t: TrainingSession)
    ensures t.currentSequence == []
    ensures t.actionSequences == s.actionSequences && t.ratings == s.ratings
  {
    s.(currentSequence := [])
  }

  /** `add_action`: appends to the open buffer whatever state the session is in. */
  function AddAction(s: TrainingSession, a: Action): (t: TrainingSession)
    ensures |t.currentSequence| == |s.currentSequence| + 1
    ensures t.currentSequence[..|s.currentSequence|] == s.currentSequence
    ensures t.currentSequence[|s.currentSequence|] == a
    ensures t.actionSequences == s.actionSequences && t.ratings == s.ratings
  {
    s.(currentSequence := s.currentSequence + [a])
  }

  /** `end_sequence(rating)`: commits the open buffer with the rating when the
      buffer is non-empty, otherwise does nothing; the rating is not checked. */
  function EndSequence(s: TrainingSession, rating: real): (t: TrainingSession)
    ensures t.currentSequence == []
    ensures |s.currentSequence| > 0 ==>
      && t.actionSequences == s.actionSequences + [s.currentSequence]
      && t.ratings == s.ratings + [rating]
    ensures |s.currentSequence| == 0 ==> t == s
  {
    if |s.currentSequence| > 0 then
      TrainingSession(s.actionSequences + [s.currentSequence], s.ratings + [rating], [])
    else
      s
  }

  /** `load_training_data` with the file already parsed: the corpus is
      replaced wholesale and the open buffer kept. */
  function LoadTrainingData(s: TrainingSession, sequences: seq<seq<Action>>, ratings: seq<real>): (t: TrainingSession)
    ensures t.actionSequences == sequences && t.ratings == ratings
    ensures t.currentSequence == s.currentSequence
  {
    TrainingSession(sequences, ratings, s.currentSequence)
  }

  /** What the opaque `AdRatingModel.train` is handed: one feature row per
      committed sequence, and the ratings as labels. */
  datatype TrainingSet = TrainingSet(features: seq<FeatureVector>, labels: seq<real>)

  /** The feature matrix of `train` (src/ml_model.py:62-65): each sequence's
      features in corpus order, failing on the first sequence that fails. */
  function FeatureMatrix(sequences: seq<seq<Action>>): (r: Result<seq<FeatureVector>, ExtractError>)
    ensures r.Success? <==> forall i | 0 <= i < |sequences| :: AmountsNumeric(sequences[i])
    ensures r.Success? ==> |r.value| == |sequences|
    ensures r.Success? ==> forall i | 0 <= i < |sequences| :: Extract(sequences[i]) == Success(r.value[i])
  {
    if |sequences| == 0 then Success([])
    else
      var row :- Extract(sequences[0]);
      var rows :- FeatureMatrix(sequences[1..]);
      Success([row] + rows)
  }

  /** `train_model`: None on an empty corpus, otherwise the training set the
      rating model is fitted on (or the extraction error `train` raises). */
  function TrainModel(s: TrainingSession): (r: Option<Result<TrainingSet, ExtractError>>)
    ensures r.None? <==> |s.actionSequences| == 0
    ensures r.Some? ==> (r.value.Success? <==> forall i | 0 <= i < |s.actionSequences| :: AmountsNumeric(s.actionSequences[i]))
    ensures r.Some? && r.value.Success? ==>
      && r.value.value.labels == s.ratings
      && |r.value.value.features| == |s.actionSequences|
      && forall i | 0 <= i < |s.actionSequences| ::
           Extract(s.actionSequences[i]) == Success(r.value.value.features[i])
  {
    if |s.actionSequences| == 0 then None
    else match FeatureMatrix(s.actionSequences)
      case Failure(e) => Some(Failure(e))
      case Success(rows) => Some(Success(TrainingSet(rows, s.ratings)))
  }

  // ---------------------------------------------------------------------
  // Properties of the session.
  // ---------------------------------------------------------------------

  lemma NewSessionValid()
    ensures Valid(NewSession())
    ensures TrainModel(NewSession()).None?
  {
  }

  /** Every non-loading operation keeps the corpus invariant. */
  lemma OperationsPreserveValid(s: TrainingSession, a: Action, rating: real)
    requires Valid(s)
    ensures Valid(StartSequence(s))
    ensures Valid(AddAction(s, a))
    ensures Valid(EndSequence(s, rating))
  {
    EndSequenceValid(s, rating);
  }

  /** Committing the open sequence keeps the corpus invariant: the buffer is
      only committed when it is non-empty. */
  lemma EndSequenceValid(s: TrainingSession, rating: real)
    requires Valid(s)
    ensures Valid(EndSequence(s, rating))
  {
    var t := EndSequence(s, rating);
    if |s.currentSequence| > 0 {
      assert forall i | 0 <= i < |s.actionSequences| :: t.actionSequences[i] == s.actionSequences[i];
      assert t.actionSequences[|s.actionSequences|] == s.currentSequence;
    }
  }

  /** `end_sequence` grows the corpus by exactly one example iff the buffer was
      non-empty, and never drops or rewrites an earlier example. */
  lemma EndSequenceGrowth(s: TrainingSession, rating: real)
    requires Valid(s)
    ensures |EndSequence(s, rating).actionSequences| ==
      |s.actionSequences| + (if |s.currentSequence| > 0 then 1 else 0)
    ensures |EndSequence(s, rating).ratings| == |EndSequence(s, rating).actionSequences|
    ensures CorpusExtends(s, EndSequence(s, rating))
  {
    var t := EndSequence(s, rating);
    if |s.currentSequence| > 0 {
      assert t.actionSequences[..|s.actionSequences|] == s.actionSequences;
      assert t.ratings[..|s.ratings|] == s.ratings;
    }
  }

  /** A load keeps the invariant exactly when the loaded lists have it. */
  lemma LoadValid(s: TrainingSession, sequences: seq<seq<Action>>, ratings: seq<real>)
    ensures Valid(LoadTrainingData(s, sequences, ratings)) <==> Valid(TrainingSession(sequences, ratings, []))
  {
  }
}
