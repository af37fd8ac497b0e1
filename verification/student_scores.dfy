/** The letter grading of the student-score analyzer
    (scripts/analysis.py of the student-score project): each score is bucketed
    into a letter grade, the grade becomes a new column of the data, and the
    number of students per grade, in letter order, is stored with the results. */
module StudentScores {
  import opened Dicts

  datatype Grade = A | B | C | D | F

  /** The position of a grade in letter order, best first; it is also the order
      in which `sort_index` lists the grade labels. */
  function Rank(g: Grade): nat {
    match g
    case A => 0
    case B => 1
    case C => 2
    case D => 3
    case F => 4
  }

  /** `assign_grade`: 90 and above is A, then B, C and D in bands of ten, below 60 is F. */
  function AssignGrade(score: real): (g: Grade)
    ensures g == A <==> score >= 90.0
    ensures g == B <==> 80.0 <= score < 90.0
    ensures g == C <==> 70.0 <= score < 80.0
    ensures g == D <==> 60.0 <= score < 70.0
    ensures g == F <==> score < 60.0
  {
    if score >= 90.0 then A
    else if score >= 80.0 then B
    else if score >= 70.0 then C
    else if score >= 60.0 then D
    else F
  }

  /** A higher score never gets a worse grade. */
  lemma AssignGradeMonotone(s: real, t: real)
    requires s <= t
    ensures Rank(AssignGrade(t)) <= Rank(AssignGrade(s))
  {
  }

  /** The number of occurrences of `g` in a grade column. */
  function Count(gs: seq<Grade>, g: Grade): (n: nat)
    ensures n == multiset(gs)[g]
    ensures n <= |gs|
    ensures n > 0 <==> g in gs
  {
    if gs == [] then 0
    else
      assert gs == [gs[0]] + gs[1..];
      (if gs[0] == g then 1 else 0) + Count(gs[1..], g)
  }

  /** Every grade is one of the five letters, so the five counts add up to the column's length. */
  lemma {:induction false} CountsCover(gs: seq<Grade>)
    ensures Count(gs, A) + Count(gs, B) + Count(gs, C) + Count(gs, D) + Count(gs, F) == |gs|
  {
    if gs != [] {
      CountsCover(gs[1..]);
    }
  }

  /** All grades in letter order. */
  const Letters: seq<Grade> := [A, B, C, D, F]

  /** Grades in strictly increasing letter order. */
  predicate InLetterOrder(ls: seq<Grade>) {
    forall i, j :: 0 <= i < j < |ls| ==> Rank(ls[i]) < Rank(ls[j])
  }

  /** The counts of the grades of `ls` that occur, in the order of `ls`. */
  function CountsOf(gs: seq<Grade>, ls: seq<Grade>): Dict<Grade, nat> {
    if ls == [] then []
    else (if Count(gs, ls[0]) > 0 then [(ls[0], Count(gs, ls[0]))] else []) + CountsOf(gs, ls[1..])
  }

  /** `value_counts().sort_index()` of a grade column. */
  function Distribution(gs: seq<Grade>): Dict<Grade, nat> {
    CountsOf(gs, Letters)
  }

  /** The sum of the counts of a distribution. */
  function Total(d: Dict<Grade, nat>): nat {
    if d == [] then 0 else d[0].1 + Total(d[1..])
  }

  lemma {:induction false} TotalAppend(a: Dict<Grade, nat>, b: Dict<Grade, nat>)
    ensures Total(a + b) == Total(a) + Total(b)
  {
    if a != [] {
      TotalAppend(a[1..], b);
      assert (a + b)[1..] == a[1..] + b;
    } else {
      assert a + b == b;
    }
  }

  /** The pairs of `d` in strictly increasing letter order. */
  predicate Ordered(d: Dict<Grade, nat>) {
    forall i, j :: 0 <= i < j < |d| ==> Rank(d[i].0) < Rank(d[j].0)
  }

  lemma InLetterOrderTail(ls: seq<Grade>)
    requires InLetterOrder(ls) && ls != []
    ensures InLetterOrder(ls[1..])
    ensures |ls| > 1 ==> Rank(ls[0]) < Rank(ls[1..][0])
  {
    var tail := ls[1..];
    forall i, j | 0 <= i < j < |tail| ensures Rank(tail[i]) < Rank(tail[j]) {
      assert tail[i] == ls[i + 1] && tail[j] == ls[j + 1];
    }
  }

  lemma OrderedCons(p: (Grade, nat), rest: Dict<Grade, nat>, lo: nat)
    requires Ordered(rest) && lo <= Rank(p.0)
    requires forall i :: 0 <= i < |rest| ==> Rank(p.0) < Rank(rest[i].0)
    ensures Ordered([p] + rest)
    ensures forall i :: 0 <= i < |rest| + 1 ==> lo <= Rank(([p] + rest)[i].0)
  {
    var d := [p] + rest;
    forall i, j | 0 <= i < j < |d| ensures Rank(d[i].0) < Rank(d[j].0) {
      assert d[j] == rest[j - 1];
      if i > 0 {
        assert d[i] == rest[i - 1];
      }
    }
    forall i | 0 <= i < |d| ensures lo <= Rank(d[i].0) {
      if i > 0 {
        assert d[i] == rest[i - 1];
      }
    }
  }

  /** The counts follow the order of the letters they are drawn from, and none
      comes before the first of them. */
  lemma {:induction false} CountsOfOrdered(gs: seq<Grade>, ls: seq<Grade>)
    requires InLetterOrder(ls)
    ensures Ordered(CountsOf(gs, ls))
    ensures ls != [] ==> forall i :: 0 <= i < |CountsOf(gs, ls)| ==> Rank(ls[0]) <= Rank(CountsOf(gs, ls)[i].0)
  {
    if ls != [] {
      InLetterOrderTail(ls);
      var rest := CountsOf(gs, ls[1..]);
      CountsOfOrdered(gs, ls[1..]);
      if Count(gs, ls[0]) > 0 {
        OrderedCons((ls[0], Count(gs, ls[0])), rest, Rank(ls[0]));
      }
    }
  }

  /** Each count in the result is that of a letter of `ls` occurring in the column. */
  lemma {:induction false} CountsOfEntry(gs: seq<Grade>, ls: seq<Grade>, i: nat)
    requires i < |CountsOf(gs, ls)|
    ensures CountsOf(gs, ls)[i].0 in ls
    ensures CountsOf(gs, ls)[i].1 == Count(gs, CountsOf(gs, ls)[i].0) > 0
  {
    var rest := CountsOf(gs, ls[1..]);
    if Count(gs, ls[0]) > 0 {
      if i > 0 {
        CountsOfEntry(gs, ls[1..], i - 1);
        assert CountsOf(gs, ls)[i] == rest[i - 1];
      }
    } else {
      CountsOfEntry(gs, ls[1..], i);
    }
  }

  /** A letter of `ls`, if it occurs in the column, has its count in the result. */
  lemma {:induction false} CountsOfComplete(gs: seq<Grade>, ls: seq<Grade>, g: Grade)
    requires g in ls && g in gs
    ensures (g, Count(gs, g)) in CountsOf(gs, ls)
  {
    if ls[0] != g {
      CountsOfComplete(gs, ls[1..], g);
    }
  }

  /** The sum of the counts of the letters of `ls`. */
  function CountAll(gs: seq<Grade>, ls: seq<Grade>): nat {
    if ls == [] then 0 else Count(gs, ls[0]) + CountAll(gs, ls[1..])
  }

  /** Leaving out the letters that do not occur does not change the total. */
  lemma {:induction false} CountsOfTotal(gs: seq<Grade>, ls: seq<Grade>)
    ensures Total(CountsOf(gs, ls)) == CountAll(gs, ls)
  {
    if ls != [] {
      CountsOfTotal(gs, ls[1..]);
      var head: Dict<Grade, nat> := if Count(gs, ls[0]) > 0 then [(ls[0], Count(gs, ls[0]))] else [];
      TotalAppend(head, CountsOf(gs, ls[1..]));
    }
  }

  /** The grade distribution lists its grades in letter order. */
  lemma DistributionOrdered(gs: seq<Grade>)
    ensures Ordered(Distribution(gs))
  {
    CountsOfOrdered(gs, Letters);
  }

  /** The grade distribution lists exactly the grades that occur, each with its
      number of students. */
  lemma DistributionKeys(gs: seq<Grade>, g: Grade)
    ensures g in Keys(Distribution(gs)) <==> g in gs
    ensures g in gs ==> Get(Distribution(gs), g) == Some(Count(gs, g))
  {
    var d := Distribution(gs);
    if g in Keys(d) {
      var i :| 0 <= i < |d| && Keys(d)[i] == g;
      CountsOfEntry(gs, Letters, i);
    }
    if g in gs {
      CountsOfComplete(gs, Letters, g);
      var i :| 0 <= i < |d| && d[i] == (g, Count(gs, g));
      CountsOfOrdered(gs, Letters);
      assert DistinctKeys(d);
      GetAt(d, i);
    }
  }

  /** The numbers of the grade distribution add up to the number of students. */
  lemma DistributionTotal(gs: seq<Grade>)
    ensures Total(Distribution(gs)) == |gs|
  {
    CountsOfTotal(gs, Letters);
    CountsCover(gs);
    assert CountAll(gs, [F]) == Count(gs, F) by { assert [F][1..] == []; }
    assert CountAll(gs, [D, F]) == Count(gs, D) + Count(gs, F) by { assert [D, F][1..] == [F]; }
    assert CountAll(gs, [C, D, F]) == Count(gs, C) + CountAll(gs, [D, F]) by { assert [C, D, F][1..] == [D, F]; }
    assert CountAll(gs, [B, C, D, F]) == Count(gs, B) + CountAll(gs, [C, D, F]) by { assert [B, C, D, F][1..] == [C, D, F]; }
    assert CountAll(gs, Letters) == Count(gs, A) + CountAll(gs, [B, C, D, F]) by { assert Letters[1..] == [B, C, D, F]; }
  }

  /** The analyzer, as far as grading goes: the score column, the grade column it
      adds, and the grade distribution it stores among its results. */
  class StudentScoreAnalyzer {
    /** `data['score']`. */
    var scores: seq<real>
    /** `data['grade']`, absent until the distribution is computed. */
    var grades: Option<seq<Grade>>
    /** `results['grade_distribution']`, absent until it is computed. */
    var gradeDistribution: Option<Dict<Grade, nat>>

    constructor (scores: seq<real>)
      ensures this.scores == scores && grades == None && gradeDistribution == None
    {
      this.scores := scores;
      grades := None;
      gradeDistribution := None;
    }

    /** `grade_distribution`: grade every row, then count the students per grade. */
    method GradeDistribution() returns (dist: Dict<Grade, nat>)
      modifies this
      ensures scores == old(scores)
      ensures grades.Some? && |grades.value| == |scores|
      ensures forall i :: 0 <= i < |scores| ==> grades.value[i] == AssignGrade(scores[i])
      ensures dist == Distribution(grades.value)
      ensures Ordered(dist) && Total(dist) == |scores|
      ensures gradeDistribution == Some(dist)
    {
      var column: seq<Grade> := [];
      var i := 0;
      while i < |scores|
        invariant 0 <= i <= |scores|
        invariant |column| == i
        invariant forall k :: 0 <= k < i ==> column[k] == AssignGrade(scores[k])
      {
        column := column + [AssignGrade(scores[i])];
        i := i + 1;
      }
      grades := Some(column);
      dist := Distribution(column);
      DistributionOrdered(column);
      DistributionTotal(column);
      gradeDistribution := Some(dist);
    }
  }
}
