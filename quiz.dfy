/**
 The fixed content of the career quiz (its eight questions and the four
 agreement options) and the scoring step that reduces a completed answer
 list to the four-slot count vector handed to the classifier.
 */
module Quiz {

  datatype Option<T> = None | Some(value: T)

  /** The eight questions, asked in this order. */
  const Questions: seq<string> := [
    "Do you enjoy building applications?",
    "Do you like analyzing data?",
    "Are you interested in cyber security?",
    "Do you enjoy designing user interfaces?",
    "Do you like solving programming problems?",
    "Do you enjoy statistics and math?",
    "Are you interested in ethical hacking?",
    "Do you like creativity and visual design?"
  ]

  /** The answer options; an answer is recorded as its position in this list. */
  const Options: seq<string> := ["Strongly Yes", "Yes", "No", "Strongly No"]

  /** A recorded answer is the index of one of the options. */
  predicate ValidAnswers(answers: seq<nat>) {
    forall k :: 0 <= k < |answers| ==> answers[k] < |Options|
  }

  /**
   The position of the first occurrence of x in xs, as a list's `index`
   method computes it; None where `index` raises because x is absent.
   */
  function IndexOf(xs: seq<string>, x: string): (r: Option<nat>)
    ensures r.Some? <==> x in xs
    ensures r.Some? ==> r.value < |xs| && xs[r.value] == x && x !in xs[..r.value]
  {
    if xs == [] then None
    else if xs[0] == x then Some(0)
    else match IndexOf(xs[1..], x)
      case None => None
      case Some(k) =>
        assert xs[..k + 1] == [xs[0]] + xs[1..][..k];
        Some(k + 1)
  }

  /** The index recorded for a selected option label. */
  function OptionIndex(answer: string): Option<nat> {
    IndexOf(Options, answer)
  }

  /** No two positions of xs hold the same label. */
  predicate Distinct(xs: seq<string>) {
    forall i, j :: 0 <= i < |xs| && 0 <= j < |xs| && xs[i] == xs[j] ==> i == j
  }

  /** In a list without repeats, looking up the element at position i gives i. */
  lemma IndexOfDistinct(xs: seq<string>, i: nat)
    requires Distinct(xs) && i < |xs|
    ensures IndexOf(xs, xs[i]) == Some(i)
  {
  }

  /** OptionIndex inverts option lookup: the label at index i is recorded as i. */
  lemma OptionIndexInverse(i: nat)
    requires i < |Options|
    ensures OptionIndex(Options[i]) == Some(i)
  {
  }

  /** The option weights in order: "Strongly Yes" 0, "Yes" 1, "No" 2, "Strongly No" 3. */
  lemma OptionWeights()
    ensures OptionIndex("Strongly Yes") == Some(0)
    ensures OptionIndex("Yes") == Some(1)
    ensures OptionIndex("No") == Some(2)
    ensures OptionIndex("Strongly No") == Some(3)
  {
  }

  /** How many answers equal v, as a list's `count` method computes it. */
  function Count(answers: seq<nat>, v: nat): (r: nat)
    ensures r <= |answers|
    ensures r == 0 <==> v !in answers
    ensures r == |answers| <==> forall k :: 0 <= k < |answers| ==> answers[k] == v
  {
    if answers == [] then 0
    else (if answers[0] == v then 1 else 0) + Count(answers[1..], v)
  }

  /** Count agrees with the multiplicity of v in the multiset of answers. */
  lemma {:induction false} CountIsMultiplicity(answers: seq<nat>, v: nat)
    ensures Count(answers, v) == multiset(answers)[v]
  {
    if answers != [] {
      CountIsMultiplicity(answers[1..], v);
      assert answers == [answers[0]] + answers[1..];
      assert multiset(answers) == multiset{answers[0]} + multiset(answers[1..]);
    }
  }

  lemma CountsAreMultiplicities(answers: seq<nat>)
    ensures forall v: nat :: Count(answers, v) == multiset(answers)[v]
  {
    forall v: nat ensures Count(answers, v) == multiset(answers)[v] {
      CountIsMultiplicity(answers, v);
    }
  }

  /**
   The feature vector [A, B, C, D]: slot i holds how many answers chose
   option i, in option order.
   */
  function FeatureVector(answers: seq<nat>): (fv: seq<nat>)
    ensures |fv| == |Options|
    ensures forall i :: 0 <= i < |fv| ==> fv[i] == multiset(answers)[i]
    ensures forall i :: 0 <= i < |fv| ==> fv[i] <= |answers|
  {
    CountsAreMultiplicities(answers);
    [Count(answers, 0), Count(answers, 1), Count(answers, 2), Count(answers, 3)]
  }

  /** The sum of the slots of a vector. */
  function Total(fv: seq<nat>): nat {
    if fv == [] then 0 else fv[0] + Total(fv[1..])
  }

  lemma TotalOfFour(fv: seq<nat>)
    requires |fv| == 4
    ensures Total(fv) == fv[0] + fv[1] + fv[2] + fv[3]
  {
    assert Total(fv[3..]) == fv[3] by { assert fv[3..][1..] == []; }
    assert Total(fv[2..]) == fv[2] + Total(fv[3..]) by { assert fv[2..][1..] == fv[3..]; }
    assert Total(fv[1..]) == fv[1] + Total(fv[2..]) by { assert fv[1..][1..] == fv[2..]; }
  }

  /**
   The slots never add up to more than the number of answers, and they add
   up to exactly that number if and only if every answer is an option index.
   */
  lemma {:induction false} FeatureVectorTotal(answers: seq<nat>)
    ensures Total(FeatureVector(answers)) <= |answers|
    ensures Total(FeatureVector(answers)) == |answers| <==> ValidAnswers(answers)
  {
    var fv := FeatureVector(answers);
    TotalOfFour(fv);
    if answers == [] {
      assert fv == [0, 0, 0, 0];
    } else {
      var x, rest := answers[0], answers[1..];
      FeatureVectorTotal(rest);
      var fr := FeatureVector(rest);
      TotalOfFour(fr);
      assert Total(fv) == Total(fr) + (if x < |Options| then 1 else 0);
      if x >= |Options| {
        assert !ValidAnswers(answers);
      } else {
        assert ValidAnswers(answers) <==> ValidAnswers(rest) by {
          if ValidAnswers(rest) {
            forall k | 0 <= k < |answers| ensures answers[k] < |Options| {
              if k > 0 { assert answers[k] == rest[k - 1]; }
            }
          }
          if ValidAnswers(answers) {
            forall k | 0 <= k < |rest| ensures rest[k] < |Options| {
              assert rest[k] == answers[k + 1];
            }
          }
        }
      }
    }
  }

  /** Appending answer x adds one to slot x and leaves the other slots alone. */
  lemma FeatureVectorAppend(answers: seq<nat>, x: nat)
    ensures forall i :: 0 <= i < |Options| ==>
      FeatureVector(answers + [x])[i] == FeatureVector(answers)[i] + (if i == x then 1 else 0)
  {
  }

  /** The vector depends only on how often each option was chosen, not on question order. */
  lemma FeatureVectorPermutation(a: seq<nat>, b: seq<nat>)
    requires multiset(a) == multiset(b)
    ensures FeatureVector(a) == FeatureVector(b)
  {
  }

  /** n copies of the same answer x fill slot x with n and no other slot. */
  lemma CountUniform(n: nat, x: nat, v: nat)
    ensures Count(seq(n, _ => x), v) == if v == x then n else 0
  {
  }

  /** Answering all eight questions with "Yes" (index 1) gives [0, 8, 0, 0]. */
  lemma AllYesFeatureVector()
    ensures FeatureVector(seq(|Questions|, _ => 1)) == [0, 8, 0, 0]
  {
  }
}
