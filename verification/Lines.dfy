/** Splitting a byte stream into lines, whatever its chunks: the specification
    every incremental splitter refines. */
module Lines {
  import opened Basics

  /** A byte, written as the character of the same code. */
  type Byte = c: char | c as int < 256 witness 'a'

  type Bytes = seq<Byte>

  const NL: Byte := '\n'
  const CR: Byte := '\r'

  function Flatten(chunks: seq<Bytes>): Bytes {
    if chunks == [] then [] else Flatten(chunks[..|chunks| - 1]) + chunks[|chunks| - 1]
  }

  /** The newline-terminated lines, without their newlines. */
  function Terminated(s: Bytes): seq<Bytes> {
    if s == [] then []
    else if s[|s| - 1] == NL then Terminated(s[..|s| - 1]) + [Tail(s[..|s| - 1])]
    else Terminated(s[..|s| - 1])
  }

  /** What follows the last newline. */
  function Tail(s: Bytes): Bytes {
    if s == [] || s[|s| - 1] == NL then [] else Tail(s[..|s| - 1]) + [s[|s| - 1]]
  }

  /** Every line a reader sees: the terminated ones, then a non-empty tail. */
  function AllLines(s: Bytes): seq<Bytes> { Terminated(s) + if Tail(s) == [] then [] else [Tail(s)] }

  predicate NlFree(s: Bytes) { forall i :: 0 <= i < |s| ==> s[i] != NL }

  function Join(ls: seq<Bytes>): Bytes {
    if ls == [] then [] else Join(ls[..|ls| - 1]) + ls[|ls| - 1] + [NL]
  }

  lemma {:induction false} Snoc(s: Bytes, b: Byte)
    ensures Terminated(s + [b]) == if b == NL then Terminated(s) + [Tail(s)] else Terminated(s)
    ensures Tail(s + [b]) == if b == NL then [] else Tail(s) + [b]
  {
    assert (s + [b])[..|s|] == s;
  }

  lemma {:induction false} LinesAreFree(s: Bytes)
    ensures NlFree(Tail(s)) && forall k :: 0 <= k < |Terminated(s)| ==> NlFree(Terminated(s)[k])
  {
    if s != [] { LinesAreFree(s[..|s| - 1]); }
  }

  lemma {:induction false} JoinSnoc(ls: seq<Bytes>, l: Bytes)
    ensures Join(ls + [l]) == Join(ls) + l + [NL]
  {
    assert (ls + [l])[..|ls|] == ls;
  }

  /** Splitting undoes joining ... */
  lemma {:induction false} SplitIsInverse(s: Bytes)
    ensures Join(Terminated(s)) + Tail(s) == s && NlFree(Tail(s))
    ensures forall k :: 0 <= k < |Terminated(s)| ==> NlFree(Terminated(s)[k])
  {
    LinesAreFree(s);
    RejoinIsWhole(s);
  }

  lemma {:induction false} Chained(a: Bytes, b: Bytes, c: Bytes)
    ensures a + (b + c) == (a + b) + c
  {
  }

  lemma {:induction false} RejoinOne(s: Bytes, b: Byte)
    requires Join(Terminated(s)) + Tail(s) == s
    ensures Join(Terminated(s + [b])) + Tail(s + [b]) == s + [b]
  {
    Snoc(s, b);
    if b == NL {
      JoinSnoc(Terminated(s), Tail(s));
      assert s + [NL] + [] == s + [NL];
    } else {
      Chained(Join(Terminated(s)), Tail(s), [b]);
    }
  }

  lemma {:induction false} RejoinIsWhole(s: Bytes)
    ensures Join(Terminated(s)) + Tail(s) == s
  {
    if s != [] {
      RejoinIsWhole(s[..|s| - 1]);
      assert s == s[..|s| - 1] + [s[|s| - 1]];
      RejoinOne(s[..|s| - 1], s[|s| - 1]);
    }
  }

  lemma {:induction false} PlainIsTail(ls: Bytes, t: Bytes)
    requires NlFree(t)
    ensures Terminated(ls + t) == Terminated(ls) && Tail(ls + t) == Tail(ls) + t
  {
    if t == [] {
      assert ls + t == ls;
    } else {
      var front, b := t[..|t| - 1], t[|t| - 1];
      assert t == front + [b];
      PlainIsTail(ls, front);
      Chained(ls, front, [b]);
      Snoc(ls + front, b);
      Chained(Tail(ls), front, [b]);
    }
  }

  /** ... and joining undoes splitting: there is no other way to read a byte
      string as newline-free lines and a newline-free rest. */
  lemma {:induction false} SplitIsUnique(ls: seq<Bytes>, t: Bytes)
    requires NlFree(t) && forall k :: 0 <= k < |ls| ==> NlFree(ls[k])
    ensures Terminated(Join(ls) + t) == ls && Tail(Join(ls) + t) == t
  {
    if ls == [] {
      PlainIsTail([], t);
      assert [] + t == t;
    } else {
      var front, last := ls[..|ls| - 1], ls[|ls| - 1];
      SplitIsUnique(front, last);
      JoinedLine(Join(front), last, t);
      assert front + [last] == ls;
    }
  }

  lemma {:induction false} JoinedLine(before: Bytes, line: Bytes, t: Bytes)
    requires NlFree(t)
    ensures Terminated(before + line + [NL] + t) == Terminated(before + line) + [Tail(before + line)]
    ensures Tail(before + line + [NL] + t) == t
  {
    Snoc(before + line, NL);
    PlainIsTail(before + line + [NL], t);
    assert [] + t == t;
  }

  lemma {:induction false} Regroup(a: Bytes, b: Bytes)
    requires b != []
    ensures a + b == (a + b[..|b| - 1]) + [b[|b| - 1]]
  {
  }

  /** Only the unfinished line matters for what comes next. */
  lemma {:induction false} Concat(a: Bytes, b: Bytes)
    ensures Terminated(a + b) == Terminated(a) + Terminated(Tail(a) + b)
    ensures Tail(a + b) == Tail(Tail(a) + b)
  {
    if b == [] {
      assert a + b == a && Tail(a) + b == Tail(a);
      SplitIsInverse(a);
      PlainIsTail([], Tail(a));
      assert [] + Tail(a) == Tail(a);
    } else {
      var front, last := b[..|b| - 1], b[|b| - 1];
      Concat(a, front);
      Regroup(a, b);
      Regroup(Tail(a), b);
      Snoc(a + front, last);
      Snoc(Tail(a) + front, last);
      Glued(Terminated(a), Terminated(Tail(a) + front), [Tail(Tail(a) + front)]);
    }
  }

  lemma {:induction false} Glued(a: seq<Bytes>, b: seq<Bytes>, c: seq<Bytes>)
    ensures (a + b) + c == a + (b + c)
  {
  }

  lemma {:induction false} EndedLine(line: Bytes)
    requires NlFree(line)
    ensures Terminated(line + [NL]) == [line] && Tail(line + [NL]) == []
  {
    NoLine(line);
    Snoc(line, NL);
  }

  lemma {:induction false} Nothing(s: Bytes)
    ensures [] + s == s
  {
  }

  /** One pass of the splitters' inner loop: the first newline ends a line. */
  lemma {:induction false} FirstLine(line: Bytes, rest: Bytes)
    requires NlFree(line)
    ensures Terminated(line + [NL] + rest) == [line] + Terminated(rest)
    ensures Tail(line + [NL] + rest) == Tail(rest)
  {
    EndedLine(line);
    Concat(line + [NL], rest);
    Nothing(rest);
  }

  lemma {:induction false} NoLine(s: Bytes)
    requires NlFree(s)
    ensures Terminated(s) == [] && Tail(s) == s
  {
    PlainIsTail([], s);
    assert [] + s == s;
  }

  /** `s.split(b"\n", 1)` on a buffer that holds a newline. */
  function SplitOnce(s: Bytes): (r: (Bytes, Bytes))
    requires !NlFree(s)
    ensures NlFree(r.0) && s == r.0 + [NL] + r.1
  {
    if s[0] == NL then ([], s[1..])
    else
      assert !NlFree(s[1..]) by {
        var i :| 0 <= i < |s| && s[i] == NL;
        assert s[1..][i - 1] == NL;
      }
      var (line, rest) := SplitOnce(s[1..]);
      ([s[0]] + line, rest)
  }

  lemma {:induction false} FlattenSnoc(chunks: seq<Bytes>, k: nat)
    requires k < |chunks|
    ensures Flatten(chunks[..k + 1]) == Flatten(chunks[..k]) + chunks[k]
  {
    assert chunks[..k + 1][..k] == chunks[..k];
  }

  // --------------------------------------------------------------- stripping

  predicate White(b: Byte) { b in {' ', '\t', '\n', '\r', 11 as char, 12 as char} }

  predicate Blank(s: Bytes) { forall i :: 0 <= i < |s| ==> White(s[i]) }

  function LStrip(s: Bytes): Bytes { if s != [] && White(s[0]) then LStrip(s[1..]) else s }

  function RStrip(s: Bytes): Bytes { if s != [] && White(s[|s| - 1]) then RStrip(s[..|s| - 1]) else s }

  function Strip(s: Bytes): Bytes { RStrip(LStrip(s)) }

  predicate StartsWith(s: Bytes, p: Bytes) { |p| <= |s| && s[..|p|] == p }

  /** `p in s`. */
  predicate Contains(s: Bytes, p: Bytes) { StartsWith(s, p) || (s != [] && Contains(s[1..], p)) }

  lemma {:induction false} ContainsInWhole(a: Bytes, s: Bytes, b: Bytes, p: Bytes)
    requires Contains(s, p)
    ensures Contains(a + s + b, p)
  {
    if a != [] {
      ContainsInWhole(a[1..], s, b, p);
      assert (a + s + b)[1..] == a[1..] + s + b;
    } else if StartsWith(s, p) {
      assert (a + s + b)[..|p|] == s[..|p|];
    } else {
      ContainsInWhole([], s[1..], b, p);
      assert (a + s + b)[1..] == [] + s[1..] + b;
    }
  }

  lemma {:induction false} StripPlain(s: Bytes)
    requires s != [] && !White(s[0]) && !White(s[|s| - 1])
    ensures Strip(s) == s
  {
  }

  lemma {:induction false} LStripAppend(s: Bytes, t: Bytes)
    requires t != [] && !White(t[0])
    ensures LStrip(s + t) == LStrip(s) + t
  {
    if s == [] {
      assert s + t == t;
    } else if White(s[0]) {
      LStripAppend(s[1..], t);
      assert (s + t)[1..] == s[1..] + t;
    }
  }

  lemma {:induction false} LStripFacts(s: Bytes)
    ensures LStrip(s) == [] <==> Blank(s)
    ensures LStrip(s) != [] ==> !White(LStrip(s)[0])
  {
    if s != [] && White(s[0]) {
      LStripFacts(s[1..]);
      if Blank(s[1..]) {
        forall i | 0 <= i < |s| ensures White(s[i]) { if i > 0 { assert s[i] == s[1..][i - 1]; } }
      } else {
        var i :| 0 <= i < |s[1..]| && !White(s[1..][i]);
        assert !White(s[i + 1]);
      }
    }
  }

  lemma {:induction false} StripIgnoresTrailing(s: Bytes, b: Byte)
    requires White(b)
    ensures Strip(s + [b]) == Strip(s)
  {
    if s == [] {
      assert s + [b] == [b] && [b][1..] == [];
    } else if White(s[0]) {
      StripIgnoresTrailing(s[1..], b);
      assert (s + [b])[1..] == s[1..] + [b];
    } else {
      assert (s + [b])[..|s|] == s;
    }
  }

  /** Stripping takes the blanks around a text and nothing else. */
  lemma {:induction false} StripPadded(p: Bytes, x: Bytes, q: Bytes)
    requires Blank(p) && Blank(q) && x != [] && !White(x[0]) && !White(x[|x| - 1])
    ensures Strip(p + x + q) == x
  {
    if q == [] {
      LStripAppend(p, x);
      LStripFacts(p);
      assert p + x + q == p + x && [] + x == x;
      StripPlain(x);
      assert LStrip(x) == x;
    } else {
      var front, last := q[..|q| - 1], q[|q| - 1];
      StripPadded(p, x, front);
      StripIgnoresTrailing(p + x + front, last);
      assert p + x + q == p + x + front + [last];
    }
  }

  predicate StandsAt(s: Bytes, p: Bytes, i: nat) { i + |p| <= |s| && s[i..i + |p|] == p }

  lemma {:induction false} ContainedStands(s: Bytes, p: Bytes) returns (i: nat)
    requires Contains(s, p)
    ensures StandsAt(s, p, i)
  {
    if StartsWith(s, p) {
      assert s[0..0 + |p|] == s[..|p|];
      i := 0;
    } else {
      var j := ContainedStands(s[1..], p);
      assert s[j + 1..j + 1 + |p|] == s[1..][j..j + |p|];
      i := j + 1;
    }
  }

  lemma {:induction false} StandingIsContained(s: Bytes, p: Bytes, i: nat)
    requires StandsAt(s, p, i)
    ensures Contains(s, p)
  {
    if i == 0 {
      assert s[..|p|] == s[0..0 + |p|];
    } else if s != [] {
      assert s[1..][i - 1..i - 1 + |p|] == s[i..i + |p|];
      StandingIsContained(s[1..], p, i - 1);
    }
  }

  /** The substring test finds exactly the texts that stand somewhere. */
  lemma {:induction false} ContainsExactly(s: Bytes, p: Bytes)
    ensures Contains(s, p) <==> exists i :: StandsAt(s, p, i)
  {
    if Contains(s, p) { var i := ContainedStands(s, p); }
    forall i: nat | StandsAt(s, p, i) ensures Contains(s, p) { StandingIsContained(s, p, i); }
  }
}
