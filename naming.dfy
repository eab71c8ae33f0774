/**
 * How a free-text topic becomes a lesson file name: lower-case it, turn
 * every character outside `[a-z0-9_]` into `_`, collapse runs of `_`,
 * trim `_` from both ends, then prefix the zero-padded lesson number.
 * Case mapping covers ASCII letters only.
 */
module Naming {
  import opened Text

  predicate SafeChar(c: char) {
    'a' <= c <= 'z' || IsDigit(c) || c == '_'
  }

  predicate AllSafe(s: string) {
    forall i :: 0 <= i < |s| ==> SafeChar(s[i])
  }

  /** No two consecutive underscores. */
  ghost predicate NoDoubleUnderscore(s: string) {
    forall i, j :: 0 <= i < j < |s| && j == i + 1 ==> !(s[i] == '_' && s[j] == '_')
  }

  /** The characters other than `_`, in order. */
  function Letters(s: string): string {
    if s == [] then [] else (if s[0] == '_' then [] else [s[0]]) + Letters(s[1..])
  }

  function LowerChar(c: char): char {
    if 'A' <= c <= 'Z' then (c as int + 32) as char else c
  }

  /** `s.lower()` on ASCII letters. */
  function Lower(s: string): (r: string)
    ensures |r| == |s| && forall i :: 0 <= i < |s| ==> r[i] == LowerChar(s[i])
  {
    seq(|s|, i requires 0 <= i < |s| => LowerChar(s[i]))
  }

  /** `re.sub(r"[^a-z0-9_]", "_", s)` */
  function ReplaceUnsafe(s: string): (r: string)
    ensures |r| == |s| && forall i :: 0 <= i < |s| ==> r[i] == if SafeChar(s[i]) then s[i] else '_'
    ensures AllSafe(r)
  {
    seq(|s|, i requires 0 <= i < |s| => if SafeChar(s[i]) then s[i] else '_')
  }

  /** `re.sub(r"_+", "_", s)`: every run of underscores becomes one. */
  function Collapse(s: string): (r: string)
    ensures NoDoubleUnderscore(r)
    ensures |s| > 0 ==> |r| > 0 && r[0] == s[0] && r[|r| - 1] == s[|s| - 1]
    ensures AllSafe(s) ==> AllSafe(r)
    decreases |s|
  {
    if |s| < 2 then s
    else if s[0] == '_' && s[1] == '_' then Collapse(s[1..])
    else [s[0]] + Collapse(s[1..])
  }

  /** `s.lstrip("_")` */
  function StripLeadingUnderscores(s: string): (r: string)
    ensures |r| <= |s| && r == s[|s| - |r|..]
    ensures r == [] || r[0] != '_'
    ensures forall i :: 0 <= i < |s| - |r| ==> s[i] == '_'
  {
    if |s| > 0 && s[0] == '_' then StripLeadingUnderscores(s[1..]) else s
  }

  /** `s.rstrip("_")` */
  function StripTrailingUnderscores(s: string): (r: string)
    ensures |r| <= |s| && r == s[..|r|]
    ensures r == [] || r[|r| - 1] != '_'
    ensures forall i :: |r| <= i < |s| ==> s[i] == '_'
  {
    if |s| > 0 && s[|s| - 1] == '_' then StripTrailingUnderscores(s[..|s| - 1]) else s
  }

  /** `s.strip("_")` */
  function StripUnderscores(s: string): string {
    StripTrailingUnderscores(StripLeadingUnderscores(s))
  }

  /** The `safe_topic` the generation node computes from the topic. */
  function SafeTopic(topic: string): string {
    StripUnderscores(Collapse(ReplaceUnsafe(Lower(topic))))
  }

  /** A safe topic uses only `[a-z0-9_]`, never two underscores in a row, and no underscore at either end. */
  lemma SafeTopicShape(topic: string)
    ensures var r := SafeTopic(topic);
      && AllSafe(r)
      && NoDoubleUnderscore(r)
      && (r == [] || (r[0] != '_' && r[|r| - 1] != '_'))
  {
    StripShape(Collapse(ReplaceUnsafe(Lower(topic))));
  }

  /** Trimming keeps a string's characters safe and free of double underscores, and leaves none at the ends. */
  lemma StripShape(c: string)
    requires AllSafe(c) && NoDoubleUnderscore(c)
    ensures var r := StripUnderscores(c);
      && AllSafe(r)
      && NoDoubleUnderscore(r)
      && (r == [] || (r[0] != '_' && r[|r| - 1] != '_'))
  {
    var l := StripLeadingUnderscores(c);
    var r := StripTrailingUnderscores(l);
    SliceShape(c, |c| - |l|, |c|);
    SliceShape(l, 0, |r|);
    if r != [] {
      assert r[0] == l[0];
    }
  }

  lemma SliceShape(c: string, a: nat, b: nat)
    requires a <= b <= |c|
    requires AllSafe(c) && NoDoubleUnderscore(c)
    ensures AllSafe(c[a..b]) && NoDoubleUnderscore(c[a..b])
  {
    var r := c[a..b];
    forall i | 0 <= i < |r| ensures r[i] == c[a + i] {
    }
  }

  /** Collapsing and trimming underscores keeps every other character, in order. */
  lemma {:induction false} CollapseLetters(s: string)
    ensures Letters(Collapse(s)) == Letters(s)
    decreases |s|
  {
    if |s| >= 2 {
      CollapseLetters(s[1..]);
      if !(s[0] == '_' && s[1] == '_') {
        assert ([s[0]] + Collapse(s[1..]))[1..] == Collapse(s[1..]);
      }
    }
  }

  lemma {:induction false} LettersOfConcat(a: string, b: string)
    ensures Letters(a + b) == Letters(a) + Letters(b)
  {
    if a != [] {
      assert (a + b)[1..] == a[1..] + b;
      LettersOfConcat(a[1..], b);
    } else {
      assert a + b == b;
    }
  }

  lemma {:induction false} LettersOfUnderscores(s: string)
    requires forall i :: 0 <= i < |s| ==> s[i] == '_'
    ensures Letters(s) == []
  {
    if s != [] {
      LettersOfUnderscores(s[1..]);
    }
  }

  lemma StripLetters(s: string)
    ensures Letters(StripUnderscores(s)) == Letters(s)
  {
    var l := StripLeadingUnderscores(s);
    StripLeadingLetters(s);
    StripTrailingLetters(l);
  }

  lemma StripLeadingLetters(s: string)
    ensures Letters(StripLeadingUnderscores(s)) == Letters(s)
  {
    var l := StripLeadingUnderscores(s);
    var u := s[..|s| - |l|];
    assert s == u + l;
    LettersOfConcat(u, l);
    LettersOfUnderscores(u);
  }

  lemma StripTrailingLetters(s: string)
    ensures Letters(StripTrailingUnderscores(s)) == Letters(s)
  {
    var r := StripTrailingUnderscores(s);
    var u := s[|r|..];
    assert s == r + u;
    LettersOfConcat(r, u);
    LettersOfUnderscores(u);
  }

  /** The letters and digits of the safe topic are those of the lower-cased topic, in order, with every other character dropped. */
  lemma SafeTopicLetters(topic: string)
    ensures Letters(SafeTopic(topic)) == Letters(ReplaceUnsafe(Lower(topic)))
  {
    var c := Collapse(ReplaceUnsafe(Lower(topic)));
    StripLetters(c);
    CollapseLetters(ReplaceUnsafe(Lower(topic)));
  }

  lemma {:induction false} CollapseNoDouble(s: string)
    requires NoDoubleUnderscore(s)
    ensures Collapse(s) == s
    decreases |s|
  {
    if |s| >= 2 {
      assert !(s[0] == '_' && s[1] == '_');
      CollapseNoDouble(s[1..]);
    }
  }

  /** Sanitising an already safe topic changes nothing. */
  lemma SafeTopicIdempotent(topic: string)
    ensures SafeTopic(SafeTopic(topic)) == SafeTopic(topic)
  {
    var r := SafeTopic(topic);
    SafeTopicShape(topic);
    SafeCharsFixed(r);
    CollapseNoDouble(r);
    assert StripLeadingUnderscores(r) == r;
    assert StripTrailingUnderscores(r) == r;
  }

  lemma SafeCharsFixed(s: string)
    requires AllSafe(s)
    ensures Lower(s) == s && ReplaceUnsafe(s) == s
  {
    assert forall i :: 0 <= i < |s| ==> Lower(s)[i] == s[i];
    assert forall i :: 0 <= i < |s| ==> ReplaceUnsafe(s)[i] == s[i];
  }

  /** `f"{number:03d}_{safe_topic}.py"` */
  function LessonFileName(number: nat, topic: string): string {
    Pad3(number) + "_" + SafeTopic(topic) + ".py"
  }

  /**
   * A single path component of the shape `<stem>.py`: no `/` or `\`,
   * its only `.` is the one before `py`, hence no `..`, and it is neither
   * `.` nor `..`.
   */
  ghost predicate PlainComponent(f: string) {
    && '/' !in f && '\\' !in f
    && |f| >= 7 && f[|f| - 3..] == ".py"
    && (forall i :: 0 <= i < |f| && f[i] == '.' ==> i == |f| - 3)
    && (forall i, j :: 0 <= i < j < |f| && j == i + 1 ==> !(f[i] == '.' && f[j] == '.'))
    && f != "" && f != "." && f != ".."
  }

  /** Whatever the topic, the generated file name is one plain path component. */
  lemma FileNameIsComponent(number: nat, topic: string)
    ensures PlainComponent(LessonFileName(number, topic))
  {
    Pad3Digits(number);
    SafeTopicShape(topic);
    StemIsSafe(Pad3(number), SafeTopic(topic));
    SafeStemDotPy(Pad3(number) + "_" + SafeTopic(topic));
  }

  lemma StemIsSafe(p: string, t: string)
    requires AllDigits(p) && AllSafe(t)
    ensures AllSafe(p + "_" + t)
  {
    var stem := p + "_" + t;
    forall i | 0 <= i < |stem| ensures SafeChar(stem[i]) {
      if i < |p| {
        assert stem[i] == p[i];
      } else if i > |p| {
        assert stem[i] == t[i - |p| - 1];
      }
    }
  }

  lemma SafeStemDotPy(stem: string)
    requires AllSafe(stem) && |stem| >= 4
    ensures PlainComponent(stem + ".py")
  {
    var f := stem + ".py";
    assert forall i :: 0 <= i < |stem| ==> f[i] == stem[i];
    assert f[|stem|..] == ".py";
  }

  /** The leading digits of a generated file name read back as its number. */
  lemma FileNameNumber(number: nat, topic: string)
    ensures var d := LeadingDigits(LessonFileName(number, topic)); |d| >= 3 && AllDigits(d) && DecimalValue(d) == number
  {
    var p := Pad3(number);
    Pad3Spec(number);
    var rest := "_" + SafeTopic(topic) + ".py";
    Regroup(p, SafeTopic(topic));
    assert rest[0] == '_';
    LeadingDigitsOfConcat(p, rest);
  }

  lemma Regroup(p: string, t: string)
    ensures p + "_" + t + ".py" == p + ("_" + t + ".py")
  {
  }
}
