/** Subdomain labels (core/cfworker_subdomain_allocator.py, label builders). */
module Labels {
  import opened Basics
  import opened Decimal
  import opened Text

  predicate IsLabelChar(ch: char) {
    'a' <= ch <= 'z' || '0' <= ch <= '9' || ch == '-'
  }

  predicate IsDash(ch: char) { ch == '-' }

  // ---- normalising ------------------------------------------------------------------------

  function NormalizeDomain(domain: string): string {
    var value := Lower(Strip(domain));
    Trim(if value != "" && value[0] == '@' then value[1..] else value, IsDot)
  }

  /** Each run of other characters becomes one '-'; runs of '-' shrink to one. */
  function Dashed(s: string): (r: string)
    ensures forall i :: 0 <= i < |r| ==> IsLabelChar(r[i])
    ensures forall i :: 0 < i < |r| ==> !(r[i - 1] == '-' && r[i] == '-')
  {
    if s == "" then ""
    else
      var rest := Dashed(s[1..]);
      var ch := if IsLabelChar(s[0]) then s[0] else '-';
      if ch == '-' && rest != "" && rest[0] == '-' then rest else [ch] + rest
  }

  function NormalizeLabel(value: string): (r: string)
    ensures '.' !in r
    ensures forall ch :: ch in r ==> IsLabelChar(ch)
    ensures r != "" ==> r[0] != '-' && r[|r| - 1] != '-'
  {
    var text := Dashed(Trim(Lower(Strip(value)), IsDot));
    TrimShape(text, IsDash);
    Trim(text, IsDash)
  }

  /** The prefix actually used: "acc" when nothing is left of the requested one. */
  function LabelPrefix(value: string): (r: string)
    ensures r != "" && '.' !in r
  {
    if NormalizeLabel(value) == "" then "acc" else NormalizeLabel(value)
  }

  // ---- counter labels -----------------------------------------------------------------------

  /** The number of a label `prefix-<digits>` (a final newline is tolerated, as `$` does). */
  function IndexOf(tag: string, prefix: string): Option<nat> {
    var head := prefix + "-";
    if !(head <= tag) then None
    else
      var tail := tag[|head|..];
      var digits := if tail != "" && tail[|tail| - 1] == '\n' then tail[..|tail| - 1] else tail;
      if IsNumeral(digits) then Some(Value(digits)) else None
  }

  /** The largest number among `labels`, 0 if none has one. */
  function MaxIndex(labels: seq<string>, prefix: string): nat {
    if |labels| == 0 then 0
    else
      var last, before := IndexOf(labels[|labels| - 1], prefix), MaxIndex(labels[..|labels| - 1], prefix);
      if last.Some? && last.value > before then last.value else before
  }

  lemma {:induction false} MaxIndexCovers(labels: seq<string>, prefix: string, tag: string)
    requires tag in labels && IndexOf(tag, prefix).Some?
    ensures IndexOf(tag, prefix).value <= MaxIndex(labels, prefix)
  {
    if labels[|labels| - 1] != tag {
      MaxIndexCovers(labels[..|labels| - 1], prefix, tag);
    }
  }

  function CounterLabel(labels: seq<string>, prefix: string): string {
    prefix + "-" + Padded(MaxIndex(labels, prefix) + 1, 4)
  }

  /** Reading back a counter label gives its number, whatever the prefix contains. */
  lemma IndexOfCounterLabel(prefix: string, n: nat)
    ensures IndexOf(prefix + "-" + Padded(n, 4), prefix) == Some(n)
  {
    var tag, head := prefix + "-" + Padded(n, 4), prefix + "-";
    assert tag[|head|..] == Padded(n, 4);
    PaddedRoundTrip(n, 4);
  }

  /** The counter label differs from every scanned label. */
  lemma CounterLabelIsNew(labels: seq<string>, prefix: string)
    ensures CounterLabel(labels, prefix) !in labels
  {
    IndexOfCounterLabel(prefix, MaxIndex(labels, prefix) + 1);
    if CounterLabel(labels, prefix) in labels {
      MaxIndexCovers(labels, prefix, CounterLabel(labels, prefix));
    }
  }

  /** Random labels: the first of at most 50 drawn suffixes that is free, else the counter. */
  method BuildRandomLabel(labels: seq<string>, prefix: string, draws: nat -> string) returns (tag: string)
    ensures tag == RandomLabel(labels, prefix, draws, 0)
  {
    for i := 0 to 50
      invariant RandomLabel(labels, prefix, draws, 0) == RandomLabel(labels, prefix, draws, i)
    {
      tag := prefix + "-" + draws(i);
      if tag !in labels {
        return;
      }
    }
    tag := CounterLabel(labels, prefix);
  }

  function RandomLabel(labels: seq<string>, prefix: string, draws: nat -> string, from: nat): string
    requires from <= 50
    decreases 50 - from
  {
    if from == 50 then CounterLabel(labels, prefix)
    else if prefix + "-" + draws(from) !in labels then prefix + "-" + draws(from)
    else RandomLabel(labels, prefix, draws, from + 1)
  }

  datatype Strategy = Counter | Random(draws: nat -> string)

  /** The alphabet random suffixes are drawn from has no dot. */
  ghost predicate DotFree(s: Strategy) {
    s.Random? ==> forall i: nat :: '.' !in s.draws(i)
  }

  function MakeLabel(labels: seq<string>, prefix: string, strategy: Strategy): string {
    match strategy
    case Counter => CounterLabel(labels, prefix)
    case Random(draws) => RandomLabel(labels, prefix, draws, 0)
  }

  lemma {:induction false} RandomLabelIsNew(labels: seq<string>, prefix: string, draws: nat -> string, from: nat)
    requires from <= 50 && '.' !in prefix && DotFree(Random(draws))
    ensures RandomLabel(labels, prefix, draws, from) !in labels
    ensures '.' !in RandomLabel(labels, prefix, draws, from)
    decreases 50 - from
  {
    if from == 50 {
      CounterLabelIsNew(labels, prefix);
    } else if prefix + "-" + draws(from) in labels {
      RandomLabelIsNew(labels, prefix, draws, from + 1);
    }
  }

  /** Whatever the strategy and the draws, a made label is new among the scanned ones and
      contains no dot. */
  lemma MadeLabelIsNew(labels: seq<string>, prefix: string, strategy: Strategy)
    requires '.' !in prefix && DotFree(strategy)
    ensures MakeLabel(labels, prefix, strategy) !in labels
    ensures '.' !in MakeLabel(labels, prefix, strategy)
  {
    match strategy
    case Counter => CounterLabelIsNew(labels, prefix);
    case Random(draws) => RandomLabelIsNew(labels, prefix, draws, 0);
  }

  // ---- which label, exactly -----------------------------------------------------------------------

  lemma {:induction false} MaxIndexIsTaken(labels: seq<string>, prefix: string)
    ensures MaxIndex(labels, prefix) > 0 ==>
      exists tag :: tag in labels && IndexOf(tag, prefix) == Some(MaxIndex(labels, prefix))
  {
    hide IndexOf;
    if |labels| > 0 {
      var last, init := labels[|labels| - 1], labels[..|labels| - 1];
      MaxIndexIsTaken(init, prefix);
      assert last in labels;
      if MaxIndex(labels, prefix) > 0 && MaxIndex(init, prefix) == MaxIndex(labels, prefix) {
        var tag :| tag in init && IndexOf(tag, prefix) == Some(MaxIndex(init, prefix));
        assert tag in labels;
      }
    }
  }

  /** A label is numbered `n` for a prefix exactly when it is the prefix, a hyphen and a numeral of
      value `n` - whatever zeros stand in front. */
  lemma NumberedExactly(tag: string, prefix: string, digits: string)
    requires tag == prefix + "-" + digits && IsNumeral(digits)
    ensures IndexOf(tag, prefix) == Some(Value(digits))
  {
    assert tag[|prefix + "-"|..] == digits;
  }

  lemma PaddedShape(n: nat, width: nat)
    ensures |Padded(n, width)| >= width && (|Padded(n, width)| > width ==> Padded(n, width) == Numeral(n))
  {
  }

  /** The counter label: the prefix, a hyphen, and at least four digits whose value is one more than
      the highest number among the labels - or 1 if none of them is numbered. */
  lemma CounterIsNext(labels: seq<string>, prefix: string) returns (n: nat, digits: string)
    ensures CounterLabel(labels, prefix) == prefix + "-" + digits
    ensures IsNumeral(digits) && |digits| >= 4 && Value(digits) == n + 1 && (|digits| > 4 ==> digits == Numeral(n + 1))
    ensures forall tag :: tag in labels && IndexOf(tag, prefix).Some? ==> IndexOf(tag, prefix).value <= n
    ensures n == 0 || exists tag :: tag in labels && IndexOf(tag, prefix) == Some(n)
  {
    hide IndexOf, Padded;
    n := MaxIndex(labels, prefix);
    digits := Padded(n + 1, 4);
    PaddedRoundTrip(n + 1, 4);
    PaddedShape(n + 1, 4);
    MaxIndexIsTaken(labels, prefix);
    forall tag | tag in labels && IndexOf(tag, prefix).Some? ensures IndexOf(tag, prefix).value <= n {
      MaxIndexCovers(labels, prefix, tag);
    }
  }

  /** The random label is that of the first of fifty draws that is not taken; when all fifty are
      taken it is the counter label. */
  lemma {:induction false} FirstFreeDraw(labels: seq<string>, prefix: string, draws: nat -> string, k: nat, from: nat)
    requires from <= k <= 50 && forall j :: from <= j < k ==> prefix + "-" + draws(j) in labels
    requires k < 50 ==> prefix + "-" + draws(k) !in labels
    ensures RandomLabel(labels, prefix, draws, from)
         == if k < 50 then prefix + "-" + draws(k) else CounterLabel(labels, prefix)
    decreases k - from
  {
    if from < k {
      FirstFreeDraw(labels, prefix, draws, k, from + 1);
    }
  }

  // ---- what normalising keeps ----------------------------------------------------------------------

  /** A domain in lower case that neither starts nor ends with a dot, a blank or an at sign. */
  predicate NormalDomain(d: string) {
    && d != "" && Lower(d) == d && d[0] != '@'
    && !IsSpace(d[0]) && !IsSpace(d[|d| - 1]) && d[0] != '.' && d[|d| - 1] != '.'
  }

  /** Normalising leaves such a domain alone, and takes an at sign in front and the dots around
      from it. */
  lemma NormalDomainStays(d: string)
    requires NormalDomain(d)
    ensures NormalizeDomain(d) == d && NormalizeDomain("@" + d) == d && NormalizeDomain("." + d + ".") == d
  {
    TrimTwice(d, IsSpace);
    TrimTwice(d, IsDot);
    var at, dotted := "@" + d, "." + d + ".";
    assert at[0] == '@' && at[|at| - 1] == d[|d| - 1] && at[1..] == d;
    TrimTwice(at, IsSpace);
    assert Lower(at) == at;
    assert dotted[0] == '.' && dotted[|dotted| - 1] == '.';
    TrimTwice(dotted, IsSpace);
    assert Lower(dotted) == dotted;
    DotsAround(d);
  }

  lemma DotsAround(d: string)
    requires d != "" && d[0] != '.' && d[|d| - 1] != '.'
    ensures Trim("." + d + ".", IsDot) == d
  {
    var s := "." + d + ".";
    assert s[1..] == d + "." && (d + ".")[0] == d[0];
    assert TrimLeft(s, IsDot) == TrimLeft(d + ".", IsDot) == d + ".";
    assert (d + ".")[..|d|] == d;
    assert TrimRight(d + ".", IsDot) == TrimRight(d, IsDot) == d;
  }

  /** A label of the allowed characters without hyphens at its ends or next to each other. */
  predicate NormalLabel(s: string) {
    && s != "" && (forall i :: 0 <= i < |s| ==> IsLabelChar(s[i])) && s[0] != '-' && s[|s| - 1] != '-'
    && forall i :: 0 < i < |s| ==> !(s[i - 1] == '-' && s[i] == '-')
  }

  lemma {:induction false} DashedKeeps(s: string)
    requires forall i :: 0 <= i < |s| ==> IsLabelChar(s[i])
    requires forall i :: 0 < i < |s| ==> !(s[i - 1] == '-' && s[i] == '-')
    ensures Dashed(s) == s
  {
    if s != "" {
      assert forall i :: 0 < i < |s[1..]| ==> s[1..][i] == s[i + 1] && s[1..][i - 1] == s[i];
      DashedKeeps(s[1..]);
    }
  }

  /** Normalising leaves a normal label alone, so a usable prefix is used as it is; a text of which
      nothing is left gives "acc". */
  lemma NormalLabelStays(s: string)
    requires NormalLabel(s)
    ensures NormalizeLabel(s) == s && LabelPrefix(s) == s
    ensures LabelPrefix("") == "acc"
  {
    TrimTwice(s, IsSpace);
    TrimTwice(s, IsDot);
    TrimTwice(s, IsDash);
    assert Lower(s) == s;
    DashedKeeps(s);
    NothingIsLeft();
    hide Dashed, Trim, Lower;
  }

  lemma NothingIsLeft()
    ensures NormalizeLabel("") == ""
  {
    assert Lower("") == "";
    TrimTwice("", IsSpace);
    TrimTwice("", IsDot);
    TrimTwice("", IsDash);
  }

  /** Everything else becomes one hyphen, however much of it stands together. */
  lemma ForeignCharactersBecomeHyphens()
    ensures NormalizeLabel("A_ 7") == "a-7"
  {
    TrimTwice("A_ 7", IsSpace);
    assert Lower("A_ 7") == "a_ 7";
    TrimTwice("a_ 7", IsDot);
    DashedExample();
    TrimTwice("a-7", IsDash);
    hide Dashed, Trim, Lower;
  }

  lemma DashedExample()
    ensures Dashed("a_ 7") == "a-7"
  {
    DashedKeeps("7");
    assert " 7"[1..] == "7" && Dashed(" 7") == "-7";
    assert "_ 7"[1..] == " 7" && Dashed("_ 7") == "-7";
    assert "a_ 7"[1..] == "_ 7";
  }

  // ---- full domains --------------------------------------------------------------------------------

  function FullDomain(tag: string, root: string): string {
    tag + "." + root
  }

  /** A full domain determines its label and its root, because labels contain no dot. */
  lemma FullDomainDecodes(label1: string, root1: string, label2: string, root2: string)
    requires '.' !in label1 && '.' !in label2
    requires FullDomain(label1, root1) == FullDomain(label2, root2)
    ensures label1 == label2 && root1 == root2
  {
    var d := FullDomain(label1, root1);
    assert forall i :: 0 <= i < |label1| ==> d[i] == label1[i] != '.';
    assert forall i :: 0 <= i < |label2| ==> d[i] == label2[i] != '.';
    assert d[|label1|] == '.' && d[|label2|] == '.';
    assert label1 == d[..|label1|] == label2;
    assert d[|label1| + 1..] == root1;
  }
}
