/** The few string operations of the source that the models need, over ASCII. */
module Text {
  import opened Seqs

  predicate IsSpace(c: char) {
    c == ' ' || c == '\t' || c == '\n' || c == '\r' || c == 11 as char || c == 12 as char
  }

  function TrimLeft(s: string): string {
    if s != "" && IsSpace(s[0]) then TrimLeft(s[1..]) else s
  }

  function TrimRight(s: string): string {
    if s != "" && IsSpace(s[|s| - 1]) then TrimRight(s[..|s| - 1]) else s
  }

  function TrimSpace(s: string): string {
    TrimRight(TrimLeft(s))
  }

  predicate Blank(s: string) {
    TrimSpace(s) == ""
  }

  predicate Trimmed(s: string) {
    s != "" ==> !IsSpace(s[0]) && !IsSpace(s[|s| - 1])
  }

  predicate Contains(s: string, part: string) {
    part <= s || (s != "" && Contains(s[1..], part))
  }

  lemma {:induction false} TrimLeftFirst(s: string)
    ensures TrimLeft(s) != "" ==> !IsSpace(TrimLeft(s)[0])
  {
    if s != "" && IsSpace(s[0]) {
      TrimLeftFirst(s[1..]);
    }
  }

  lemma {:induction false} TrimRightEnds(s: string)
    ensures TrimRight(s) <= s
    ensures TrimRight(s) != "" ==> !IsSpace(TrimRight(s)[|TrimRight(s)| - 1])
  {
    if s != "" && IsSpace(s[|s| - 1]) {
      TrimRightEnds(s[..|s| - 1]);
    }
  }

  lemma TrimSpaceTrims(s: string)
    ensures Trimmed(TrimSpace(s))
  {
    TrimLeftFirst(s);
    TrimRightEnds(TrimLeft(s));
  }

  lemma TrimmedIsFixed(s: string)
    requires Trimmed(s)
    ensures TrimSpace(s) == s
  {
  }

  predicate AllSpace(s: string) {
    forall i :: 0 <= i < |s| ==> IsSpace(s[i])
  }

  lemma {:induction false} TrimLeftDrops(pad: string, s: string)
    requires AllSpace(pad) && (s != "" ==> !IsSpace(s[0]))
    ensures TrimLeft(pad + s) == s
  {
    if pad == "" {
      assert pad + s == s;
    } else {
      assert (pad + s)[0] == pad[0] && (pad + s)[1..] == pad[1..] + s;
      TrimLeftDrops(pad[1..], s);
    }
  }

  lemma {:induction false} TrimRightDrops(s: string, pad: string)
    requires AllSpace(pad) && (s != "" ==> !IsSpace(s[|s| - 1]))
    ensures TrimRight(s + pad) == s
  {
    if pad == "" {
      assert s + pad == s;
    } else {
      assert (s + pad)[|s + pad| - 1] == pad[|pad| - 1] && (s + pad)[..|s + pad| - 1] == s + pad[..|pad| - 1];
      TrimRightDrops(s, pad[..|pad| - 1]);
    }
  }

  /** Trimming takes the space off both ends and nothing else. */
  lemma TrimSpaceOf(before: string, core: string, after: string)
    requires AllSpace(before) && AllSpace(after) && Trimmed(core)
    ensures TrimSpace(before + core + after) == core
  {
    if core == "" {
      assert before + core + after == before + after + "";
      TrimLeftDrops(before + after, "");
    } else {
      assert before + core + after == before + (core + after);
      TrimLeftDrops(before, core + after);
      TrimRightDrops(core, after);
    }
  }

  lemma {:induction false} ContainedBetween(before: string, part: string, after: string)
    ensures Contains(before + part + after, part)
  {
    var s := before + part + after;
    if before == "" {
      assert part <= s;
    } else {
      assert s[1..] == before[1..] + part + after;
      ContainedBetween(before[1..], part, after);
    }
  }

  lemma {:induction false} ContainedSomewhere(s: string, part: string) returns (before: string, after: string)
    requires Contains(s, part)
    ensures s == before + part + after
  {
    if part <= s {
      before, after := "", s[|part|..];
    } else {
      before, after := ContainedSomewhere(s[1..], part);
      before := [s[0]] + before;
    }
  }

  /** Containing is having something before and after. */
  lemma ContainsMeans(s: string, part: string)
    ensures Contains(s, part) <==> exists before, after :: s == before + part + after
  {
    if Contains(s, part) {
      var before, after := ContainedSomewhere(s, part);
    }
    forall before, after | s == before + part + after ensures Contains(s, part) {
      ContainedBetween(before, part, after);
    }
  }

  // ---- Case and cutting ----

  const UPPER := "ABCDEFGHIJKLMNOPQRSTUVWXYZ"
  const LOWER := "abcdefghijklmnopqrstuvwxyz"

  /** The letters one by one; everything else stays. */
  lemma LowerLetters(c: char)
    ensures forall i :: 0 <= i < 26 ==> Lower(UPPER[i]) == LOWER[i]
    ensures c !in UPPER ==> Lower(c) == c
  {
    assert 'A' <= c <= 'Z' ==> UPPER[c as int - 65] == c;
  }

  function Lower(c: char): char {
    if 'A' <= c <= 'Z' then c + 32 as char else c
  }

  function ToLower(s: string): string {
    seq(|s|, i requires 0 <= i < |s| => Lower(s[i]))
  }

  /** The source's strings.TrimSpace(strings.ToLower(s)). */
  function Normal(s: string): string {
    TrimSpace(ToLower(s))
  }

  /** Around the first `sep`: what comes before and after it, if there is one. */
  function Cut(s: string, sep: char): (r: Option<(string, string)>)
    ensures r.None? ==> sep !in s
    ensures r.Some? ==> s == r.value.0 + [sep] + r.value.1 && sep !in r.value.0
  {
    if s == "" then None
    else if s[0] == sep then Some(("", s[1..]))
    else match Cut(s[1..], sep)
      case None => None
      case Some((before, after)) => Some(([s[0]] + before, after))
  }

  /** The cut is where the first separator is. */
  lemma {:induction false} CutAt(before: string, sep: char, after: string)
    requires sep !in before
    ensures Cut(before + [sep] + after, sep) == Some((before, after))
  {
    var s := before + [sep] + after;
    if before == "" {
      assert s[1..] == after;
    } else {
      assert s[0] == before[0] && s[1..] == before[1..] + [sep] + after;
      CutAt(before[1..], sep, after);
      assert [before[0]] + before[1..] == before;
    }
  }

  lemma {:induction false} TrimLeftChars(s: string)
    ensures forall c :: c in TrimLeft(s) ==> c in s
  {
    if s != "" && IsSpace(s[0]) {
      TrimLeftChars(s[1..]);
    }
  }

  /** Normalizing twice is normalizing once. */
  lemma NormalIdempotent(s: string)
    ensures Normal(Normal(s)) == Normal(s)
  {
    var t := Normal(s);
    TrimSpaceTrims(ToLower(s));
    TrimLeftChars(ToLower(s));
    TrimRightEnds(TrimLeft(ToLower(s)));
    forall i | 0 <= i < |t| ensures Lower(t[i]) == t[i] {
      assert t[i] in ToLower(s);
    }
    assert ToLower(t) == t;
    TrimmedIsFixed(t);
  }
}
