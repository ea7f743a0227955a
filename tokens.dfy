/** The character-level helpers of the force-field parser: the
    case-insensitive comparison s_comp (ParseFile.cpp:29-34) and the
    whitespace tokenizer (ParseFile.cpp:43-53). */
module Tokens {

  /** toupper in the "C" locale: only the ASCII lower-case letters change. */
  function Upper(c: char): char {
    if 'a' <= c <= 'z' then (c as int - 32) as char else c
  }

  function UpperString(s: string): string {
    seq(|s|, i requires 0 <= i < |s| => Upper(s[i]))
  }

  /** The comparison loop of s_comp from position i on. */
  function AgreeFrom(a: string, b: string, i: nat): (r: bool)
    requires |a| == |b|
    ensures r <==> forall j :: i <= j < |a| ==> Upper(a[j]) == Upper(b[j])
    decreases |a| - i
  {
    i >= |a| || (Upper(a[i]) == Upper(b[i]) && AgreeFrom(a, b, i + 1))
  }

  /** s_comp: equal lengths, and equal characters after toupper. */
  function SComp(a: string, b: string): (r: bool)
    ensures r <==> |a| == |b| && forall i :: 0 <= i < |a| ==> Upper(a[i]) == Upper(b[i])
  {
    |a| == |b| && AgreeFrom(a, b, 0)
  }

  /** s_comp compares the upper-cased strings. */
  lemma SCompUpper(a: string, b: string)
    ensures SComp(a, b) <==> UpperString(a) == UpperString(b)
  {
    if UpperString(a) == UpperString(b) {
      assert |a| == |UpperString(a)| == |UpperString(b)| == |b|;
      forall i | 0 <= i < |a| ensures Upper(a[i]) == Upper(b[i]) {
        assert UpperString(a)[i] == UpperString(b)[i];
      }
    }
  }

  lemma SCompReflexive(a: string)
    ensures SComp(a, a)
  {
  }

  lemma SCompSymmetric(a: string, b: string)
    ensures SComp(a, b) == SComp(b, a)
  {
  }

  lemma SCompTransitive(a: string, b: string, c: string)
    requires SComp(a, b) && SComp(b, c)
    ensures SComp(a, c)
  {
  }

  lemma UpperIdempotent(c: char)
    ensures Upper(Upper(c)) == Upper(c)
  {
  }

  /** Changing the case of either argument does not change the answer. */
  lemma SCompCaseInsensitive(a: string, b: string)
    ensures SComp(UpperString(a), b) == SComp(a, b)
  {
    forall i | 0 <= i < |a| ensures Upper(UpperString(a)[i]) == Upper(a[i]) {
      UpperIdempotent(a[i]);
    }
  }

  // ---------------------------------------------------------------------
  // Tokenizing.

  /** isspace in the "C" locale. */
  predicate IsSpace(c: char) {
    c == ' ' || c == '\t' || c == '\n' || c == '\r' || c as int == 11 || c as int == 12
  }

  predicate NoSpace(s: string) {
    forall i :: 0 <= i < |s| ==> !IsSpace(s[i])
  }

  predicate AllSpace(s: string) {
    forall i :: 0 <= i < |s| ==> IsSpace(s[i])
  }

  /** A token: a non-empty run without whitespace. */
  predicate IsToken(t: string) {
    t != [] && NoSpace(t)
  }

  function Flush(toks: seq<string>, cur: string): seq<string> {
    if cur == [] then toks else toks + [cur]
  }

  /** Scans s with toks already read and the run cur in progress:
      whitespace ends a run, any other character extends it. */
  function Scan(toks: seq<string>, cur: string, s: string): seq<string>
    decreases |s|
  {
    if s == [] then Flush(toks, cur)
    else if IsSpace(s[0]) then Scan(Flush(toks, cur), [], s[1..])
    else Scan(toks, cur + [s[0]], s[1..])
  }

  /** The tokens of a line. */
  function Words(s: string): seq<string> {
    Scan([], [], s)
  }

  /** tokenize: repeated extraction with >>, which skips whitespace and then
      reads a maximal run of other characters; an empty extraction (at the
      end of the line) is dropped. */
  method Tokenize(line: string) returns (tokens: seq<string>)
    ensures tokens == Words(line)
  {
    tokens := [];
    var pos := 0;
    while pos < |line|
      invariant pos <= |line|
      invariant Words(line) == Scan(tokens, [], line[pos..])
      decreases |line| - pos
    {
      while pos < |line| && IsSpace(line[pos])
        invariant pos <= |line|
        invariant Words(line) == Scan(tokens, [], line[pos..])
        decreases |line| - pos
      {
        assert line[pos..][1..] == line[pos + 1..];
        pos := pos + 1;
      }
      var start := pos;
      while pos < |line| && !IsSpace(line[pos])
        invariant start <= pos <= |line|
        invariant Words(line) == Scan(tokens, line[start..pos], line[pos..])
        decreases |line| - pos
      {
        assert line[pos..][1..] == line[pos + 1..];
        assert line[start..pos + 1] == line[start..pos] + [line[pos]];
        pos := pos + 1;
      }
      var token := line[start..pos];
      if pos < |line| {
        assert line[pos..][1..] == line[pos + 1..];
        assert Scan(Flush(tokens, token), [], line[pos..]) == Scan(Flush(tokens, token), [], line[pos + 1..]);
      } else {
        assert line[pos..] == [];
      }
      if token != [] {
        tokens := tokens + [token];
      }
    }
    assert line[pos..] == [];
  }

  // ---------------------------------------------------------------------
  // What the tokens are.

  lemma {:induction false} ScanTokens(toks: seq<string>, cur: string, s: string)
    requires forall k :: 0 <= k < |toks| ==> IsToken(toks[k])
    requires NoSpace(cur)
    ensures forall k :: 0 <= k < |Scan(toks, cur, s)| ==> IsToken(Scan(toks, cur, s)[k])
    decreases |s|
  {
    if s != [] {
      if IsSpace(s[0]) {
        ScanTokens(Flush(toks, cur), [], s[1..]);
      } else {
        ScanTokens(toks, cur + [s[0]], s[1..]);
      }
    }
  }

  /** Every token is non-empty and free of whitespace. */
  lemma WordsAreTokens(s: string)
    ensures forall k :: 0 <= k < |Words(s)| ==> IsToken(Words(s)[k])
  {
    ScanTokens([], [], s);
  }

  function Concat(ts: seq<string>): string {
    if ts == [] then [] else Concat(ts[..|ts| - 1]) + ts[|ts| - 1]
  }

  /** The characters of s that are not whitespace. */
  function NonSpace(s: string): string {
    if s == [] then [] else (if IsSpace(s[0]) then [] else [s[0]]) + NonSpace(s[1..])
  }

  lemma ConcatFlush(toks: seq<string>, cur: string)
    ensures Concat(Flush(toks, cur)) == Concat(toks) + cur
  {
    if cur != [] {
      assert (toks + [cur])[..|toks|] == toks;
    } else {
      assert Concat(toks) + cur == Concat(toks);
    }
  }

  lemma {:induction false} ScanConcat(toks: seq<string>, cur: string, s: string)
    ensures Concat(Scan(toks, cur, s)) == Concat(toks) + cur + NonSpace(s)
    decreases |s|, 1
  {
    if s == [] {
      ConcatFlush(toks, cur);
      assert Concat(toks) + cur + [] == Concat(toks) + cur;
    } else if IsSpace(s[0]) {
      ScanConcatSpace(toks, cur, s);
    } else {
      ScanConcatChar(toks, cur, s);
    }
  }

  lemma {:induction false} ScanConcatSpace(toks: seq<string>, cur: string, s: string)
    requires s != [] && IsSpace(s[0])
    ensures Concat(Scan(toks, cur, s)) == Concat(toks) + cur + NonSpace(s)
    decreases |s|, 0
  {
    var flushed := Flush(toks, cur);
    assert Scan(toks, cur, s) == Scan(flushed, [], s[1..]);
    ScanConcat(flushed, [], s[1..]);
    ConcatFlush(toks, cur);
    var a, n := Concat(toks), NonSpace(s[1..]);
    assert NonSpace(s) == n;
    assert Concat(flushed) == a + cur;
    AppendEmpty(a + cur, n);
  }

  /** Dropping an empty piece, kept apart from ScanConcatSpace: asserted
      inline there it runs out of resource. */
  lemma AppendEmpty(x: string, y: string)
    ensures x + [] + y == x + y
  {
  }

  lemma {:induction false} ScanConcatChar(toks: seq<string>, cur: string, s: string)
    requires s != [] && !IsSpace(s[0])
    ensures Concat(Scan(toks, cur, s)) == Concat(toks) + cur + NonSpace(s)
    decreases |s|, 0
  {
    assert Scan(toks, cur, s) == Scan(toks, cur + [s[0]], s[1..]);
    ScanConcat(toks, cur + [s[0]], s[1..]);
    assert NonSpace(s) == [s[0]] + NonSpace(s[1..]);
    assert Concat(toks) + (cur + [s[0]]) + NonSpace(s[1..]) == Concat(toks) + cur + NonSpace(s);
  }

  /** Nothing but whitespace is lost, and the order is kept. */
  lemma WordsConcat(s: string)
    ensures Concat(Words(s)) == NonSpace(s)
  {
    ScanConcat([], [], s);
  }

  // ---------------------------------------------------------------------
  // Tokenizing a line built from tokens and separators gives the tokens
  // back: the tokens are exactly the maximal runs.

  /** seps[0] + toks[0] + seps[1] + ... + toks[n-1] + seps[n]. */
  function Joined(toks: seq<string>, seps: seq<string>): string
    requires |seps| == |toks| + 1
    decreases |toks|
  {
    if toks == [] then seps[0] else seps[0] + toks[0] + Joined(toks[1..], seps[1..])
  }

  lemma {:induction false} ScanWord(acc: seq<string>, cur: string, w: string, rest: string)
    requires NoSpace(w)
    ensures Scan(acc, cur, w + rest) == Scan(acc, cur + w, rest)
    decreases |w|
  {
    if w != [] {
      assert (w + rest)[1..] == w[1..] + rest;
      ScanWord(acc, cur + [w[0]], w[1..], rest);
      assert cur + [w[0]] + w[1..] == cur + w;
    } else {
      assert w + rest == rest && cur + w == cur;
    }
  }

  lemma {:induction false} ScanSpaces(acc: seq<string>, sp: string, rest: string)
    requires AllSpace(sp)
    ensures Scan(acc, [], sp + rest) == Scan(acc, [], rest)
    decreases |sp|
  {
    if sp != [] {
      assert (sp + rest)[1..] == sp[1..] + rest;
      ScanSpaces(acc, sp[1..], rest);
    } else {
      assert sp + rest == rest;
    }
  }

  lemma {:induction false} ScanJoined(acc: seq<string>, toks: seq<string>, seps: seq<string>)
    requires |seps| == |toks| + 1
    requires forall k :: 0 <= k < |toks| ==> IsToken(toks[k])
    requires forall k :: 0 <= k < |seps| ==> AllSpace(seps[k])
    requires forall k :: 0 < k < |toks| ==> seps[k] != []
    ensures Scan(acc, [], Joined(toks, seps)) == acc + toks
    decreases |toks|
  {
    if toks == [] {
      ScanSpaces(acc, seps[0], []);
      assert seps[0] + [] == seps[0];
    } else {
      var t := toks[0];
      var y := Joined(toks[1..], seps[1..]);
      assert Joined(toks, seps) == seps[0] + (t + y);
      ScanSpaces(acc, seps[0], t + y);
      ScanWord(acc, [], t, y);
      assert [] + t == t;
      if toks[1..] == [] {
        assert y == seps[1];
        if y != [] {
          ScanSpaces(acc + [t], y[1..], []);
          assert y[1..] + [] == y[1..];
        }
        assert acc + toks == acc + [t];
      } else {
        assert y == seps[1] + toks[1] + Joined(toks[2..], seps[2..]);
        assert y[0] == seps[1][0];
        ScanJoined(acc + [t], toks[1..], seps[1..]);
        assert acc + toks == acc + [t] + toks[1..];
      }
    }
  }

  /** Separating non-empty whitespace-free tokens by whitespace (any amount
      at either end, at least one character between two tokens) and
      tokenizing gives the tokens back. */
  lemma WordsOfJoined(toks: seq<string>, seps: seq<string>)
    requires |seps| == |toks| + 1
    requires forall k :: 0 <= k < |toks| ==> IsToken(toks[k])
    requires forall k :: 0 <= k < |seps| ==> AllSpace(seps[k])
    requires forall k :: 0 < k < |toks| ==> seps[k] != []
    ensures Words(Joined(toks, seps)) == toks
  {
    ScanJoined([], toks, seps);
  }
}


