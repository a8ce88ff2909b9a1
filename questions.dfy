/** The question dataset: five per-category lists of records, each record
    stamped with its category and concatenated in a fixed block order, and the
    category filter that selects the eligible questions. */
module Questions {
  import opened Values

  datatype Category = Aerodynamics | Legislation | Materials | Meteorology | Practice

  /** The category selector: `all` or one category. */
  datatype Filter = All | Only(category: Category)

  /** A record as it appears in one of the question files. */
  datatype Record = Record(
    ID: Scalar,
    Question: string,
    Answer1: string,
    Answer2: string,
    Answer3: string,
    Answer4: string,
    Answer: Scalar,
    ImageID: Option<string>)

  /** A record with the category of the list it came from. */
  datatype Question = Question(record: Record, category: Category)

  /** The five question files, as loaded. */
  datatype Datasets = Datasets(
    aerodynamics: seq<Record>,
    legislation: seq<Record>,
    materials: seq<Record>,
    meteorology: seq<Record>,
    practice: seq<Record>)
  {
    function ListOf(c: Category): seq<Record> {
      match c
      case Aerodynamics => aerodynamics
      case Legislation => legislation
      case Materials => materials
      case Meteorology => meteorology
      case Practice => practice
    }

    /** Where the block of category `c` starts in the concatenation. */
    function Offset(c: Category): nat {
      match c
      case Aerodynamics => 0
      case Legislation => |aerodynamics|
      case Materials => |aerodynamics| + |legislation|
      case Meteorology => |aerodynamics| + |legislation| + |materials|
      case Practice => |aerodynamics| + |legislation| + |materials| + |meteorology|
    }
  }

  /** `records.map((q) => ({ ...q, category: c }))`. */
  function Tag(records: seq<Record>, c: Category): (r: seq<Question>)
    ensures |r| == |records|
    ensures forall i :: 0 <= i < |r| ==> r[i] == Question(records[i], c)
  {
    seq(|records|, i requires 0 <= i < |records| => Question(records[i], c))
  }

  /** `allQuestions`: the five tagged lists, one after the other. */
  function AllQuestions(d: Datasets): (r: seq<Question>)
    ensures |r| == |d.aerodynamics| + |d.legislation| + |d.materials| + |d.meteorology| + |d.practice|
  {
    Tag(d.aerodynamics, Aerodynamics)
    + Tag(d.legislation, Legislation)
    + Tag(d.materials, Materials)
    + Tag(d.meteorology, Meteorology)
    + Tag(d.practice, Practice)
  }

  /** Indexing into the left operand of a concatenation. */
  lemma AppendLeft<T>(a: seq<T>, b: seq<T>, k: nat)
    requires k < |a|
    ensures (a + b)[k] == a[k]
  {
  }

  /** Indexing into the right operand of a concatenation. */
  lemma AppendRight<T>(a: seq<T>, b: seq<T>, k: nat)
    requires k < |b|
    ensures |a| + k < |a + b| && (a + b)[|a| + k] == b[k]
  {
  }

  /** Where the elements of each of five concatenated blocks end up. */
  lemma Concat5At<T>(s0: seq<T>, s1: seq<T>, s2: seq<T>, s3: seq<T>, s4: seq<T>, k: nat)
    ensures var s := s0 + s1 + s2 + s3 + s4;
      && (k < |s0| ==> s[k] == s0[k])
      && (k < |s1| ==> s[|s0| + k] == s1[k])
      && (k < |s2| ==> s[|s0| + |s1| + k] == s2[k])
      && (k < |s3| ==> s[|s0| + |s1| + |s2| + k] == s3[k])
      && (k < |s4| ==> s[|s0| + |s1| + |s2| + |s3| + k] == s4[k])
  {
    var a, b, c := s0 + s1, s0 + s1 + s2, s0 + s1 + s2 + s3;
    if k < |s0| {
      AppendLeft(s0, s1, k);
      AppendLeft(a, s2, k);
      AppendLeft(b, s3, k);
      AppendLeft(c, s4, k);
    }
    if k < |s1| {
      AppendRight(s0, s1, k);
      AppendLeft(a, s2, |s0| + k);
      AppendLeft(b, s3, |s0| + k);
      AppendLeft(c, s4, |s0| + k);
    }
    if k < |s2| {
      AppendRight(a, s2, k);
      AppendLeft(b, s3, |a| + k);
      AppendLeft(c, s4, |a| + k);
    }
    if k < |s3| {
      AppendRight(b, s3, k);
      AppendLeft(c, s4, |b| + k);
    }
    if k < |s4| {
      AppendRight(c, s4, k);
    }
  }

  /** The i-th record of list `c` sits at `Offset(c) + i`, stamped with `c`:
      blocks appear in the fixed order and keep their own order. */
  lemma AllQuestionsAt(d: Datasets, c: Category, i: nat)
    requires i < |d.ListOf(c)|
    ensures d.Offset(c) + i < |AllQuestions(d)|
    ensures AllQuestions(d)[d.Offset(c) + i] == Question(d.ListOf(c)[i], c)
  {
    var a := Tag(d.aerodynamics, Aerodynamics);
    var l := Tag(d.legislation, Legislation);
    var ma := Tag(d.materials, Materials);
    var me := Tag(d.meteorology, Meteorology);
    var p := Tag(d.practice, Practice);
    // One call per case, so that each case is proved on its own.
    match c {
      case Aerodynamics => Concat5At(a, l, ma, me, p, i);
      case Legislation => Concat5At(a, l, ma, me, p, i);
      case Materials => Concat5At(a, l, ma, me, p, i);
      case Meteorology => Concat5At(a, l, ma, me, p, i);
      case Practice => Concat5At(a, l, ma, me, p, i);
    }
  }

  /** `qs.filter((q) => q.category === c)`. */
  function {:induction false} FilterCategory(qs: seq<Question>, c: Category): (r: seq<Question>)
    ensures |r| <= |qs|
    ensures forall q :: q in r <==> q in qs && q.category == c
  {
    if qs == [] then []
    else if qs[0].category == c then [qs[0]] + FilterCategory(qs[1..], c)
    else FilterCategory(qs[1..], c)
  }

  /** Filtering distributes over concatenation: it keeps the relative order. */
  lemma {:induction false} FilterAppend(a: seq<Question>, b: seq<Question>, c: Category)
    ensures FilterCategory(a + b, c) == FilterCategory(a, c) + FilterCategory(b, c)
  {
    if a == [] {
      assert a + b == b;
    } else {
      assert (a + b)[0] == a[0];
      assert (a + b)[1..] == a[1..] + b;
      FilterAppend(a[1..], b, c);
    }
  }

  /** Filtering a list whose questions all carry one category keeps all of
      it or none of it. */
  lemma {:induction false} FilterUniform(qs: seq<Question>, tag: Category, c: Category)
    requires forall i :: 0 <= i < |qs| ==> qs[i].category == tag
    ensures FilterCategory(qs, c) == if tag == c then qs else []
  {
    if qs != [] {
      FilterUniform(qs[1..], tag, c);
      if tag == c {
        assert [qs[0]] + qs[1..] == qs;
      }
    }
  }

  /** Filtering a tagged list keeps all of it or none of it. */
  lemma FilterTag(records: seq<Record>, tag: Category, c: Category)
    ensures FilterCategory(Tag(records, tag), c) == if tag == c then Tag(records, tag) else []
  {
    FilterUniform(Tag(records, tag), tag, c);
  }

  /** The filter of five concatenated blocks is the concatenation of the
      filtered blocks. */
  lemma Filter5(s0: seq<Question>, s1: seq<Question>, s2: seq<Question>, s3: seq<Question>, s4: seq<Question>, c: Category)
    ensures FilterCategory(s0 + s1 + s2 + s3 + s4, c)
         == FilterCategory(s0, c) + FilterCategory(s1, c) + FilterCategory(s2, c)
            + FilterCategory(s3, c) + FilterCategory(s4, c)
  {
    FilterAppend(s0 + s1 + s2 + s3, s4, c);
    FilterAppend(s0 + s1 + s2, s3, c);
    FilterAppend(s0 + s1, s2, c);
    FilterAppend(s0, s1, c);
  }

  /** Five concatenated blocks of which all but one are empty are that one. */
  lemma OneNonEmptyBlock<T>(s0: seq<T>, s1: seq<T>, s2: seq<T>, s3: seq<T>, s4: seq<T>)
    ensures s1 == s2 == s3 == s4 == [] ==> s0 + s1 + s2 + s3 + s4 == s0
    ensures s0 == s2 == s3 == s4 == [] ==> s0 + s1 + s2 + s3 + s4 == s1
    ensures s0 == s1 == s3 == s4 == [] ==> s0 + s1 + s2 + s3 + s4 == s2
    ensures s0 == s1 == s2 == s4 == [] ==> s0 + s1 + s2 + s3 + s4 == s3
    ensures s0 == s1 == s2 == s3 == [] ==> s0 + s1 + s2 + s3 + s4 == s4
  {
  }

  /** Filtering the dataset by a category gives back exactly that category's
      list, tagged, in its own order. */
  lemma AllQuestionsByCategory(d: Datasets, c: Category)
    ensures FilterCategory(AllQuestions(d), c) == Tag(d.ListOf(c), c)
  {
    var a := Tag(d.aerodynamics, Aerodynamics);
    var l := Tag(d.legislation, Legislation);
    var ma := Tag(d.materials, Materials);
    var me := Tag(d.meteorology, Meteorology);
    var p := Tag(d.practice, Practice);
    Filter5(a, l, ma, me, p, c);
    FilterTag(d.aerodynamics, Aerodynamics, c);
    FilterTag(d.legislation, Legislation, c);
    FilterTag(d.materials, Materials, c);
    FilterTag(d.meteorology, Meteorology, c);
    FilterTag(d.practice, Practice, c);
    OneNonEmptyBlock(FilterCategory(a, c), FilterCategory(l, c), FilterCategory(ma, c),
      FilterCategory(me, c), FilterCategory(p, c));
  }

  /** `eligibleQuestions`: all questions, or those of the selected category. */
  function Eligible(all: seq<Question>, f: Filter): (r: seq<Question>)
    ensures f == All ==> r == all
    ensures f.Only? ==> forall q :: q in r <==> q in all && q.category == f.category
    ensures |r| <= |all|
  {
    if f == All then all else FilterCategory(all, f.category)
  }
}
