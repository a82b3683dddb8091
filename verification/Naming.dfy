/** DNS label text: `SanitizeName` from internal/syncplan/plan.go.
    Strings are ASCII text, so one character is one byte. */
module Naming {
  const SPACE: set<char> := {'\t', '\n', '\U{0B}', '\U{0C}', '\r', ' '}
  const DASH: set<char> := {'-'}

  predicate IsAlnum(c: char) {
    'a' <= c <= 'z' || '0' <= c <= '9'
  }

  function ToLower(c: char): char {
    if 'A' <= c <= 'Z' then (c as int + 32) as char else c
  }

  function Lower(s: string): (r: string)
    ensures |r| == |s|
  {
    seq(|s|, i requires 0 <= i < |s| => ToLower(s[i]))
  }

  function TrimLeft(s: string, cut: set<char>): string {
    if s != "" && s[0] in cut then TrimLeft(s[1..], cut) else s
  }

  function TrimRight(s: string, cut: set<char>): (r: string)
    ensures r <= s
    ensures r != "" ==> r[|r| - 1] !in cut
    ensures s != "" && s[0] !in cut ==> r != ""
  {
    if s != "" && s[|s| - 1] in cut then TrimRight(s[..|s| - 1], cut) else s
  }

  function Trim(s: string, cut: set<char>): string {
    TrimRight(TrimLeft(s, cut), cut)
  }

  /** The characters the builder receives: runs of anything that is not a
      letter or digit become one dash. */
  function Sweep(s: string, lastDash: bool): string {
    if s == "" then ""
    else if IsAlnum(s[0]) then [s[0]] + Sweep(s[1..], false)
    else if lastDash then Sweep(s[1..], true)
    else "-" + Sweep(s[1..], true)
  }

  function Sanitize(value: string): string {
    var out := Trim(Sweep(Lower(Trim(value, SPACE)), false), DASH);
    if out == "" then "x" else out
  }

  /** internal/syncplan/plan.go:82-111, with its builder and `lastDash` flag. */
  method SanitizeName(value: string) returns (out: string)
    ensures out == Sanitize(value)
  {
    var text := Lower(Trim(value, SPACE));
    var b := "";
    var lastDash := false;
    for i := 0 to |text|
      invariant b + Sweep(text[i..], lastDash) == Sweep(text, false)
    {
      var r := text[i];
      assert text[i..][1..] == text[i + 1..];
      ghost var rest := Sweep(text[i + 1..], !IsAlnum(r));
      assert b + ("-" + rest) == (b + "-") + rest && b + ([r] + rest) == (b + [r]) + rest;
      var valid := IsAlnum(r) || r == '-';
      if !valid {
        if !lastDash {
          b := b + "-";
          lastDash := true;
        }
      } else if r == '-' {
        if !lastDash {
          lastDash := true;
          b := b + [r];
        }
      } else {
        lastDash := false;
        b := b + [r];
      }
    }
    assert b + "" == b && text[|text|..] == "";
    out := Trim(b, DASH);
    if out == "" {
      out := "x";
    }
  }

  /** A DNS-1123 label, apart from its length. */
  predicate IsLabel(s: string) {
    && s != ""
    && (forall i :: 0 <= i < |s| ==> IsAlnum(s[i]) || s[i] == '-')
    && s[0] != '-' && s[|s| - 1] != '-'
    && (forall i :: 0 < i < |s| ==> !(s[i - 1] == '-' && s[i] == '-'))
  }

  /** Letters, digits and single dashes, with no dash in front when `lastDash`. */
  predicate IsSwept(s: string, lastDash: bool) {
    && (forall i :: 0 <= i < |s| ==> IsAlnum(s[i]) || s[i] == '-')
    && (lastDash && s != "" ==> s[0] != '-')
    && (forall i :: 0 < i < |s| ==> !(s[i - 1] == '-' && s[i] == '-'))
  }

  lemma {:induction false} SweepIsSwept(s: string, lastDash: bool)
    ensures IsSwept(Sweep(s, lastDash), lastDash)
  {
    if s != "" {
      SweepIsSwept(s[1..], !IsAlnum(s[0]));
    }
  }

  lemma {:induction false} TrimmedSweepIsLabel(s: string)
    requires IsSwept(s, false)
    ensures Trim(s, DASH) == "" || IsLabel(Trim(s, DASH))
  {
    if s != "" && s[0] == '-' {
      assert s[1..] == "" || s[1] != '-';
      assert TrimLeft(s, DASH) == s[1..];
    }
  }

  /** Every name that SanitizeName returns is a legal label. */
  lemma SanitizedIsLabel(value: string)
    ensures IsLabel(Sanitize(value))
  {
    var swept := Sweep(Lower(Trim(value, SPACE)), false);
    SweepIsSwept(Lower(Trim(value, SPACE)), false);
    TrimmedSweepIsLabel(swept);
  }

  lemma {:induction false} SweepKeepsSwept(s: string, lastDash: bool)
    requires IsSwept(s, lastDash)
    ensures Sweep(s, lastDash) == s
  {
    if s != "" {
      SweepKeepsSwept(s[1..], !IsAlnum(s[0]));
    }
  }

  lemma LabelIsTrimmed(s: string)
    requires IsLabel(s)
    ensures Trim(s, SPACE) == s && Trim(s, DASH) == s && Lower(s) == s
  {
    assert forall c :: IsAlnum(c) || c == '-' ==> c !in SPACE && ToLower(c) == c;
    assert s[0] !in SPACE && s[|s| - 1] !in SPACE;
    assert TrimLeft(s, SPACE) == s && TrimLeft(s, DASH) == s;
  }

  /** The fixpoints of SanitizeName are exactly the legal labels. */
  lemma SanitizeFixpoint(s: string)
    ensures Sanitize(s) == s <==> IsLabel(s)
  {
    SanitizedIsLabel(s);
    if IsLabel(s) {
      LabelIsTrimmed(s);
      SweepKeepsSwept(s, false);
    }
  }

  lemma SanitizeIdempotent(value: string)
    ensures Sanitize(Sanitize(value)) == Sanitize(value)
  {
    SanitizedIsLabel(value);
    SanitizeFixpoint(Sanitize(value));
  }

  /** A letter of either case, or a digit. */
  predicate IsWordChar(c: char) {
    'a' <= c <= 'z' || 'A' <= c <= 'Z' || '0' <= c <= '9'
  }

  function Small(c: char): char {
    if 'A' <= c <= 'Z' then 'a' + (c - 'A') else c
  }

  /** A reference reading of the same text: the letters and digits in order, small,
      with one dash exactly where something else stood between two of them. */
  function Words(s: string, started: bool, gap: bool): string {
    if s == "" then ""
    else if IsWordChar(s[0]) then (if started && gap then "-" else "") + [Small(s[0])] + Words(s[1..], true, false)
    else Words(s[1..], started, true)
  }

  lemma AlnumIsWordChar(c: char)
    ensures IsAlnum(ToLower(c)) <==> IsWordChar(c)
    ensures ToLower(c) == Small(c)
    ensures c in SPACE ==> !IsWordChar(c)
  {
  }

  lemma {:induction false} WordsIgnoreTail(s: string, started: bool, gap: bool)
    requires s != "" && !IsWordChar(s[|s| - 1])
    ensures Words(s, started, gap) == Words(s[..|s| - 1], started, gap)
  {
    if |s| > 1 {
      assert s[..|s| - 1][1..] == s[1..][..|s| - 2];
      if IsWordChar(s[0]) {
        WordsIgnoreTail(s[1..], true, false);
      } else {
        WordsIgnoreTail(s[1..], started, true);
      }
    }
  }

  lemma {:induction false} WordsIgnoreRight(s: string)
    ensures Words(TrimRight(s, SPACE), false, false) == Words(s, false, false)
  {
    if s != "" && s[|s| - 1] in SPACE {
      AlnumIsWordChar(s[|s| - 1]);
      WordsIgnoreTail(s, false, false);
      WordsIgnoreRight(s[..|s| - 1]);
    }
  }

  lemma {:induction false} WordsIgnoreLeft(s: string)
    ensures Words(TrimLeft(s, SPACE), false, false) == Words(s, false, false)
  {
    if s != "" && s[0] in SPACE {
      AlnumIsWordChar(s[0]);
      GapIsIgnoredAtStart(s[1..]);
      WordsIgnoreLeft(s[1..]);
    }
  }

  lemma {:induction false} WordsAfterGap(s: string, gap: bool)
    ensures Words(s, true, true)
         == if Words(s, false, gap) == "" then "" else "-" + Words(s, false, gap)
  {
    if s != "" && !IsWordChar(s[0]) {
      WordsAfterGap(s[1..], true);
    }
  }

  lemma {:induction false} GapIsIgnoredAtStart(s: string)
    ensures Words(s, false, true) == Words(s, false, false)
  {
  }

  lemma {:induction false} TrimRightCons(c: char, t: string)
    ensures TrimRight([c] + t, DASH)
         == if c == '-' && TrimRight(t, DASH) == "" then "" else [c] + TrimRight(t, DASH)
  {
    if t != "" && t[|t| - 1] == '-' {
      assert ([c] + t)[..|t|] == [c] + t[..|t| - 1];
      TrimRightCons(c, t[..|t| - 1]);
    } else if t == "" {
      assert [c] + t == [c];
      assert [c][..0] == "";
    } else {
      assert ([c] + t)[|t|] == t[|t| - 1];
    }
  }

  lemma {:induction false} TrimmedSweepReadsWords(s: string, lastDash: bool)
    ensures TrimRight(Sweep(Lower(s), lastDash), DASH) == Words(s, !lastDash, false)
  {
    if s != "" {
      var text := Lower(s);
      assert text[1..] == Lower(s[1..]);
      var sep := !IsAlnum(text[0]);
      AlnumIsWordChar(s[0]);
      TrimmedSweepReadsWords(s[1..], sep);
      if !sep {
        TrimRightCons(text[0], Sweep(text[1..], false));
      } else {
        GapIsIgnoredAtStart(s[1..]);
        WordsAfterGap(s[1..], false);
        TrimRightCons('-', Sweep(text[1..], true));
      }
    }
  }

  /** SanitizeName keeps the letters and digits of its input, lowercased and in
      order, and puts a dash between two of them exactly where something else
      stood; only an input without any of them gives the placeholder. */
  lemma SanitizeKeepsWords(value: string)
    ensures var words := Words(value, false, false);
            Sanitize(value) == if words == "" then "x" else words
  {
    var s := Trim(value, SPACE);
    var text := Lower(s);
    assert TrimLeft(Sweep(text, false), DASH) == Sweep(text, true) by {
      SweepIsSwept(text, true);
      if text != "" && !IsAlnum(text[0]) {
        assert Sweep(text, false)[1..] == Sweep(text[1..], true);
        SweepIsSwept(text[1..], true);
      }
    }
    TrimmedSweepReadsWords(s, true);
    WordsIgnoreLeft(value);
    WordsIgnoreRight(TrimLeft(value, SPACE));
  }
}
