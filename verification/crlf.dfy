/** _normalize_crlf (microsoft/mail.py): every line ending of a message becomes CRLF. */
module Crlf {
  import opened Wrappers

  const CR: Byte := 13
  const LF: Byte := 10
  const CRLF: Bytes := [CR, LF]

  /** bytes.replace: the occurrences of `from`, left to right and not overlapping. */
  function Replace(s: Bytes, from: Bytes, to: Bytes): Bytes
    requires from != []
    decreases |s|
  {
    if s == [] then []
    else if from <= s then to + Replace(s[|from|..], from, to)
    else [s[0]] + Replace(s[1..], from, to)
  }

  function Normalize(raw: Bytes): Bytes {
    Replace(Replace(Replace(raw, CRLF, [LF]), [CR], [LF]), [LF], CRLF)
  }

  // ----- the same in one pass --------------------------------------------------------------

  /** The length of the line ending at the start, if there is one. */
  function Ending(s: Bytes): (n: nat)
    ensures n <= |s|
  {
    if CRLF <= s then 2 else if s != [] && (s[0] == CR || s[0] == LF) then 1 else 0
  }

  function Scan(s: Bytes): Bytes
    decreases |s|
  {
    if s == [] then []
    else if Ending(s) > 0 then CRLF + Scan(s[Ending(s)..])
    else [s[0]] + Scan(s[1..])
  }

  /** The lines of a text whose lines end in CRLF, CR or LF. */
  function Lines(s: Bytes): (lines: seq<Bytes>)
    ensures lines != []
    decreases |s|
  {
    if s == [] then [[]]
    else if Ending(s) > 0 then [[]] + Lines(s[Ending(s)..])
    else
      var rest := Lines(s[1..]);
      [[s[0]] + rest[0]] + rest[1..]
  }

  /** A CR has a LF after it, a LF a CR before it. */
  predicate PairedAt(s: Bytes, i: nat)
    requires i < |s|
  {
    && (s[i] == CR ==> i + 1 < |s| && s[i + 1] == LF)
    && (s[i] == LF ==> i > 0 && s[i - 1] == CR)
  }

  predicate NoBareEndings(s: Bytes) {
    forall i :: 0 <= i < |s| ==> PairedAt(s, i)
  }

  lemma ReplaceFirst(s: Bytes, t: Bytes, from: Bytes, to: Bytes)
    requires from != [] && |s| == 1 && |from| == 1
    ensures Replace(s + t, from, to) == (if s == from then to else s) + Replace(t, from, to)
  {
    assert (s + t)[1..] == t;
    assert from <= s + t <==> s == from;
  }

  /** Main result: the three passes are the one scan. */
  lemma {:induction false} NormalizeScans(s: Bytes)
    ensures Normalize(s) == Scan(s)
    decreases |s|
  {
    if s != [] {
      var n := Ending(s);
      if n > 0 {
        var rest := s[n..];
        NormalizeScans(rest);
        var inner := Replace(rest, CRLF, [LF]);
        if n == 2 {
          assert Replace(s, CRLF, [LF]) == [LF] + inner;
          ReplaceFirst([LF], inner, [CR], [LF]);
        } else {
          assert Replace(s, CRLF, [LF]) == [s[0]] + inner;
          ReplaceFirst([s[0]], inner, [CR], [LF]);
        }
        ReplaceFirst([LF], Replace(inner, [CR], [LF]), [LF], CRLF);
      } else {
        var rest := s[1..];
        NormalizeScans(rest);
        var inner := Replace(rest, CRLF, [LF]);
        ReplaceFirst([s[0]], inner, [CR], [LF]);
        ReplaceFirst([s[0]], Replace(inner, [CR], [LF]), [LF], CRLF);
      }
    }
  }

  // ----- what normalizing does -------------------------------------------------------------

  lemma {:induction false} ScanKeepsLines(s: Bytes)
    ensures Lines(Scan(s)) == Lines(s)
    decreases |s|
  {
    if s != [] {
      if Ending(s) > 0 {
        var rest := s[Ending(s)..];
        ScanKeepsLines(rest);
        assert CRLF <= Scan(s) && Scan(s)[2..] == Scan(rest);
      } else {
        ScanKeepsLines(s[1..]);
        assert Scan(s)[1..] == Scan(s[1..]) && Ending(Scan(s)) == 0;
      }
    }
  }

  lemma NoBareAppend(ending: Bytes, rest: Bytes)
    requires NoBareEndings(ending) && NoBareEndings(rest)
    ensures NoBareEndings(ending + rest)
  {
    forall i | 0 <= i < |ending + rest| ensures PairedAt(ending + rest, i) {
      if i < |ending| {
        assert PairedAt(ending, i);
      } else {
        assert PairedAt(rest, i - |ending|);
      }
    }
  }

  lemma NoBareTail(s: Bytes, n: nat)
    requires NoBareEndings(s) && 0 < n <= |s| && s[n - 1] != CR
    ensures NoBareEndings(s[n..])
  {
    forall i | 0 <= i < |s[n..]| ensures PairedAt(s[n..], i) {
      assert PairedAt(s, i + n);
    }
  }

  lemma {:induction false} ScanEndings(s: Bytes)
    ensures NoBareEndings(Scan(s)) && |Scan(s)| <= 2 * |s|
    decreases |s|
  {
    if s != [] {
      var n := Ending(s);
      ScanEndings(s[if n > 0 then n else 1..]);
      NoBareAppend(if n > 0 then CRLF else [s[0]], Scan(s[if n > 0 then n else 1..]));
      hide NoBareEndings;
    }
  }

  lemma {:induction false} ScanFixes(s: Bytes)
    requires NoBareEndings(s)
    ensures Scan(s) == s
    decreases |s|
  {
    if s != [] {
      assert PairedAt(s, 0);
      assert s[0] != LF && (s[0] == CR ==> |s| > 1 && s[1] == LF);
      var n := if s[0] == CR then 2 else 1;
      assert s == s[..n] + s[n..];
      NoBareTail(s, n);
      ScanFixes(s[n..]);
    }
  }

  /** Normalizing leaves no bare line ending, keeps the lines, at most doubles the length, and
      changes a message exactly when it has a bare ending, so it is idempotent. */
  lemma NormalizeCrlf(s: Bytes)
    ensures NoBareEndings(Normalize(s)) && Lines(Normalize(s)) == Lines(s)
    ensures |Normalize(s)| <= 2 * |s|
    ensures Normalize(s) == s <==> NoBareEndings(s)
    ensures Normalize(Normalize(s)) == Normalize(s)
  {
    NormalizeScans(s);
    NormalizeScans(Scan(s));
    ScanKeepsLines(s);
    ScanEndings(s);
    ScanFixes(Scan(s));
    if NoBareEndings(s) { ScanFixes(s); }
  }
}
