/** Value types and small Python built-ins shared by both versions of the
    CrossFi Quest progression engine. */
module Common {

  datatype Option<T> = None | Some(value: T)

  /** The three quiz difficulties offered by the topic selector (and the
      difficulty labels of the lesson catalogues). */
  datatype Difficulty = Beginner | Intermediate | Advanced

  /** A quiz question as both apps keep it: the question text, the answer
      options, the index of the right option and an explanation. */
  datatype Question = Question(text: string, options: seq<string>, correct: int, explanation: string)

  /** The shape every question is meant to have: four options, and a correct
      index that names one of them. */
  predicate WellFormed(q: Question)
  {
    |q.options| == 4 && 0 <= q.correct < 4
  }

  /** A question list a quiz can be run on: non-empty, every question well formed. */
  predicate WellFormedBank(qs: seq<Question>)
  {
    |qs| >= 1 && forall i :: 0 <= i < |qs| ==> WellFormed(qs[i])
  }

  predicate NoDuplicates<T(==)>(s: seq<T>)
  {
    forall i, j :: 0 <= i < j < |s| ==> s[i] != s[j]
  }

  /** Appending values that are new and pairwise distinct keeps a list duplicate-free. */
  lemma AppendNoDuplicates<T>(s: seq<T>, t: seq<T>)
    requires NoDuplicates(s) && NoDuplicates(t)
    requires forall x :: x in t ==> x !in s
    ensures NoDuplicates(s + t)
  {
    forall i, j | 0 <= i < j < |s + t|
      ensures (s + t)[i] != (s + t)[j]
    {
      if j >= |s| && i < |s| {
        assert (s + t)[j] == t[j - |s|];
        assert (s + t)[j] in t;
      }
    }
  }

  /** Python's `max` over a non-empty list of numbers. */
  function Max(s: seq<real>): (m: real)
    requires |s| > 0
    ensures m in s
    ensures forall i :: 0 <= i < |s| ==> s[i] <= m
  {
    if |s| == 1 then s[0]
    else
      var rest := Max(s[..|s| - 1]);
      if s[|s| - 1] > rest then s[|s| - 1] else rest
  }

  /** `max(s) >= t` holds exactly when some entry reaches `t`. */
  lemma MaxAtLeast(s: seq<real>, t: real)
    requires |s| > 0
    ensures Max(s) >= t <==> exists i :: 0 <= i < |s| && s[i] >= t
  {
    var m := Max(s);
    if m >= t {
      var k :| 0 <= k < |s| && s[k] == m;
    }
  }

  /** When no entry exceeds `t`, `max(s) == t` holds exactly when some entry equals `t`. */
  lemma MaxEquals(s: seq<real>, t: real)
    requires |s| > 0
    requires forall i :: 0 <= i < |s| ==> s[i] <= t
    ensures Max(s) == t <==> exists i :: 0 <= i < |s| && s[i] == t
  {
    var m := Max(s);
    if m == t {
      var k :| 0 <= k < |s| && s[k] == m;
    }
  }

  /** `(correct / total) * 100` computed exactly, the way both apps compute a
      quiz's final score. */
  function Percent(correct: nat, total: nat): real
    requires total >= 1
  {
    (correct as real / total as real) * 100.0
  }

  /** A percent threshold test is the integer comparison `100 * correct >= t * total`. */
  lemma PercentAtLeast(correct: nat, total: nat, t: nat)
    requires total >= 1
    ensures Percent(correct, total) >= t as real <==> 100 * correct >= t * total
  {
    var p := Percent(correct, total);
    var n := total as real;
    assert p * n == 100.0 * correct as real;
    if p >= t as real {
      assert p * n >= t as real * n;
      assert (100 * correct) as real >= (t * total) as real;
    } else {
      assert p * n < t as real * n;
      assert (100 * correct) as real < (t * total) as real;
    }
  }

  /** A score out of `total` lies between 0 and 100 percent. */
  lemma PercentRange(correct: nat, total: nat)
    requires total >= 1 && correct <= total
    ensures 0.0 <= Percent(correct, total) <= 100.0
    ensures Percent(correct, total) == 100.0 <==> correct == total
  {
    var p := Percent(correct, total);
    var n := total as real;
    assert p * n == 100.0 * correct as real;
    assert correct as real <= n;
  }
  /** A list without duplicates has as many distinct elements as entries. */
  lemma {:induction false} DistinctCard<T>(s: seq<T>)
    requires NoDuplicates(s)
    ensures |(set x | x in s)| == |s|
  {
    if s != [] {
      var t := s[..|s| - 1];
      var last := s[|s| - 1];
      assert NoDuplicates(t);
      DistinctCard(t);
      assert (set x | x in s) == (set x | x in t) + {last};
      assert last !in t;
    }
  }

  /** A subset at least as large as its superset is the whole superset. */
  lemma SubsetCard<T>(a: set<T>, b: set<T>)
    requires a <= b
    ensures |a| <= |b|
    ensures |a| >= |b| ==> a == b
  {
    assert b == a + (b - a);
    assert a * (b - a) == {};
    if a != b {
      var x :| x in b - a;
      assert |b - a| >= 1;
    }
  }
}
