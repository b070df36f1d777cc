/**
  parser.c and parser_utils.c: a table-driven automaton, and the table that makes it compare its
  input with a text, ignoring case.
*/
module StrCmpI {
  import opened ByteBuffer

  /** A class of characters beyond any character. */
  const ANY := 512

  datatype EventType = MayEq | Eq | Neq

  datatype Event = Event(kind: EventType, data: byte)

  datatype Transition = Transition(when: int, dest: nat, act: EventType)

  /** An ASCII string; its characters are positive as `char`. */
  predicate IsText(s: seq<byte>) { forall i :: 0 <= i < |s| ==> 0 < s[i] < 128 }

  /** tolower and toupper in the C locale. */
  function Lower(c: byte): byte { if 65 <= c <= 90 then c + 32 else c }

  function Upper(c: byte): byte { if 97 <= c <= 122 then c - 32 else c }

  /** The same character, or the two cases of one of the letters A to Z. */
  predicate SameLetter(c: byte, t: byte) {
    c == t || (65 <= c <= 90 && t == c + 32) || (65 <= t <= 90 && c == t + 32)
  }

  function Fold(s: seq<byte>): (f: seq<byte>)
    ensures |f| == |s|
  {
    if s == [] then [] else Fold(s[..|s| - 1]) + [Lower(s[|s| - 1])]
  }

  /** What the comparison is to say of a non-empty input. */
  function Verdict(text: seq<byte>, input: seq<byte>): EventType {
    if Fold(input) == Fold(text) then Eq else if Fold(input) <= Fold(text) then MayEq else Neq
  }

  lemma {:induction false} FoldAt(s: seq<byte>, i: nat)
    requires i < |s|
    ensures Fold(s)[i] == Lower(s[i]) && Fold(s[..i]) == Fold(s)[..i]
    decreases |s|
  {
    var front := s[..|s| - 1];
    if i < |front| {
      FoldAt(front, i);
      assert front[..i] == s[..i];
    }
  }

  lemma FoldSnoc(s: seq<byte>, c: byte)
    ensures Fold(s + [c]) == Fold(s) + [Lower(c)]
  {
    assert (s + [c])[..|s|] == s;
  }

  /** The pair of transitions of a letter accepts both its cases and nothing else. */
  lemma BothCases(c: byte, t: byte)
    ensures c == Lower(t) || c == Upper(t) <==> Lower(c) == Lower(t)
    ensures c == Lower(t) || c == Upper(t) <==> SameLetter(c, t)
  {
  }

  lemma PrefixPlus(f: seq<byte>, g: seq<byte>, x: byte)
    ensures f + [x] <= g <==> f <= g && |f| < |g| && x == g[|f|]
  {
    if f + [x] <= g {
      assert g[..|f| + 1] == f + [x];
      assert f == (f + [x])[..|f|] == g[..|f|];
      assert x == (f + [x])[|f|] == g[|f|];
    }
    if f <= g && |f| < |g| && x == g[|f|] {
      assert f == g[..|f|];
      assert g[..|f| + 1] == f + [x];
    }
  }

  /** One more character keeps the input a beginning of the text exactly if it was one, was not
      all of it, and the next letter is the same. */
  lemma PrefixSnoc(text: seq<byte>, input: seq<byte>, c: byte)
    ensures Fold(input + [c]) <= Fold(text) <==>
      Fold(input) <= Fold(text) && |input| < |text| && Lower(c) == Lower(text[|input|])
  {
    FoldSnoc(input, c);
    PrefixPlus(Fold(input), Fold(text), Lower(c));
    if |input| < |text| {
      FoldAt(text, |input|);
    }
  }

  /** The verdict on the next input, from how much of the text it would match. */
  lemma NextVerdict(text: seq<byte>, input: seq<byte>, c: byte)
    requires Fold(input) <= Fold(text) && |input| < |text|
    ensures Verdict(text, input + [c]) ==
      if Lower(c) != Lower(text[|input|]) then Neq else if |input| + 1 == |text| then Eq else MayEq
  {
    PrefixSnoc(text, input, c);
    WholePrefix(Fold(input + [c]), Fold(text));
  }

  lemma WholePrefix(f: seq<byte>, g: seq<byte>)
    ensures f == g <==> f <= g && |f| == |g|
  {
    if f <= g && |f| == |g| {
      assert g[..|g|] == g;
    }
  }

  /** The state after some input: how much of the text it matches, or the sink. */
  function StateOf(text: seq<byte>, input: seq<byte>): nat {
    if Fold(input) <= Fold(text) then |input| else |text| + 1
  }

  /** parser_definition: the transitions of all states in one array, and where each state's are. */
  class Definition {
    const transitions: array<Transition>
    const first: array<nat>
    const count: array<nat>
    ghost const text: seq<byte>

    ghost predicate Letter(i: nat)
      requires i < |text| && transitions.Length == 3 * (|text| + 2)
      reads transitions
    {
      var act := if i + 1 == |text| then Eq else MayEq;
      && transitions[3 * i] == Transition(Lower(text[i]), i + 1, act)
      && transitions[3 * i + 1] == Transition(Upper(text[i]), i + 1, act)
      && transitions[3 * i + 2] == Transition(ANY, |text| + 1, Neq)
    }

    ghost predicate Valid()
      reads transitions, first, count
    {
      var n := |text|;
      && transitions.Length == 3 * (n + 2) && first.Length == count.Length == n + 2 && first != count
      && (forall i {:trigger Letter(i)} :: 0 <= i < n ==> Letter(i))
      && (forall i :: 0 <= i < n + 2 ==> first[i] == 3 * i)
      && (forall i :: 0 <= i < n ==> count[i] == 3)
      && count[n] == 1 && transitions[3 * n] == Transition(ANY, n + 1, Neq)
      && count[n + 1] == 1 && transitions[3 * (n + 1)] == Transition(ANY, n + 1, Neq)
    }

    /** What the loop of parser_utils_strcmpi has built for the first `k` letters. */
    ghost predicate Built(k: nat)
      reads transitions, first, count
    {
      && transitions.Length == 3 * (|text| + 2) && first.Length == count.Length == |text| + 2 && first != count
      && k <= |text|
      && (forall j {:trigger Letter(j)} :: 0 <= j < k ==> Letter(j))
      && (forall j :: 0 <= j < k ==> first[j] == 3 * j && count[j] == 3)
    }

    /** parser_utils_strcmpi. */
    constructor (s: seq<byte>)
      requires IsText(s)
      ensures Valid() && text == s && fresh(transitions) && fresh(first) && fresh(count)
    {
      var n := |s|;
      transitions := new Transition[3 * (n + 2)](_ => Transition(0, 0, MayEq));
      first := new nat[n + 2](_ => 0);
      count := new nat[n + 2](_ => 0);
      text := s;
      new;
      for i := 0 to n
        invariant Built(i)
      {
        AddLetter(s, i);
      }
      AddEnds(n);
    }

    /** The transitions of one letter, in either case. */
    method AddLetter(s: seq<byte>, i: nat)
      requires s == text && i < |s| && Built(i)
      modifies transitions, first, count
      ensures Built(i + 1)
    {
      var n := |s|;
      var dest := if i + 1 == n then n else i + 1;
      transitions[3 * i] := Transition(Lower(s[i]), dest, if i + 1 == n then Eq else MayEq);
      transitions[3 * i + 1] := Transition(Upper(s[i]), dest, if i + 1 == n then Eq else MayEq);
      transitions[3 * i + 2] := Transition(ANY, n + 1, Neq);
      first[i] := 3 * i;
      count[i] := 3;
      forall j | 0 <= j <= i
        ensures Letter(j)
      {
        assert j < i ==> old(Letter(j));
      }
    }

    /** The states for equal and for different. */
    method AddEnds(n: nat)
      requires n == |text| && Built(n)
      modifies transitions, first, count
      ensures Valid()
    {
      transitions[3 * n] := Transition(ANY, n + 1, Neq);
      first[n] := 3 * n;
      count[n] := 1;
      transitions[3 * (n + 1)] := Transition(ANY, n + 1, Neq);
      first[n + 1] := 3 * (n + 1);
      count[n + 1] := 1;
      forall j | 0 <= j < n
        ensures Letter(j)
      {
        assert old(Letter(j));
      }
    }

    /** The `j`-th transition of a state. */
    function Out(state: nat, j: nat): Transition
      requires state < first.Length && first[state] + j < transitions.Length
      reads transitions, first
    {
      transitions[first[state] + j]
    }
  }

  class Parser {
    /** Only as many entries as there are characters below 0xFF. */
    const classes: array<nat>
    const def: Definition
    var state: nat
    var e1: Event
    ghost var input: seq<byte>

    ghost predicate Valid()
      reads this, classes, def.transitions, def.first, def.count
    {
      && def.Valid() && classes.Length == 255 && (forall i :: 0 <= i < 255 ==> classes[i] == 0)
      && state == StateOf(def.text, input)
    }

    /** The look at a character's class stays inside the table for every character but 0xFF. */
    lemma ClassInside(c: byte)
      requires Valid()
      ensures c as int < classes.Length <==> c != 0xFF
    {
    }

    /** parser_init, with parser_no_classes. */
    constructor (def: Definition)
      requires def.Valid()
      ensures Valid() && this.def == def && input == []
    {
      classes := new nat[255](_ => 0);
      this.def, state, e1, input := def, 0, Event(MayEq, 0), [];
    }

    /** Whether the transition is taken; no character has a class here. */
    static predicate Matched(t: Transition, c: byte) { if t.when <= 0xFF then c == t.when else t.when == ANY }

    /** The loop of parser_feed: the first transition of the state that matches. */
    method Scan(c: byte) returns (i: nat)
      requires Valid()
      ensures i < def.count[state] && Matched(def.Out(state, i), c)
      ensures forall j :: 0 <= j < i ==> !Matched(def.Out(state, j), c)
    {
      i := 0;
      ghost var last := def.count[state] - 1;
      assert def.Out(state, last).when == ANY by {
        if state < |def.text| {
          assert def.Letter(state);
        }
      }
      while !Matched(def.Out(state, i), c)
        invariant i <= last && forall j :: 0 <= j < i ==> !Matched(def.Out(state, j), c)
        decreases last - i
      {
        i := i + 1;
      }
    }

    /** The transition that the comparison calls for. */
    lemma ScanIsNext(c: byte, i: nat)
      requires Valid() && i < def.count[state] && Matched(def.Out(state, i), c)
      requires forall j :: 0 <= j < i ==> !Matched(def.Out(state, j), c)
      ensures var next := input + [c];
        def.Out(state, i).dest == StateOf(def.text, next) && def.Out(state, i).act == Verdict(def.text, next)
    {
      var text := def.text;
      PrefixSnoc(text, input, c);
      FoldSnoc(input, c);
      if state < |text| {
        assert def.Letter(state);
        BothCases(c, text[state]);
        assert def.Out(state, 0).when == Lower(text[state]) && def.Out(state, 1).when == Upper(text[state]);
        NextVerdict(text, input, c);
      }
    }

    /** parser_feed.  0xFF would be looked up beyond the table of classes. */
    method Feed(c: byte)
      requires Valid() && c as int < classes.Length
      modifies this
      ensures Valid() && input == old(input) + [c]
      ensures e1 == Event(Verdict(def.text, input), c)
    {
      var kind := classes[c];
      var i := Scan(c);
      ScanIsNext(c, i);
      var t := def.Out(state, i);
      e1 := Event(t.act, c);
      state := t.dest;
      input := input + [c];
    }
  }

  /** Feeding a whole input: the last event says whether it is the text, might become it, or not,
      and once it is not it never is again. */
  method Compare(text: seq<byte>, w: seq<byte>) returns (verdict: EventType)
    requires IsText(text) && w != [] && forall i :: 0 <= i < |w| ==> w[i] < 255
    ensures verdict == Verdict(text, w)
  {
    var def := new Definition(text);
    var p := new Parser(def);
    var i := 0;
    while i < |w|
      invariant 0 <= i <= |w| && p.Valid() && p.def == def && p.input == w[..i] && fresh(p)
      invariant i > 0 ==> p.e1.kind == Verdict(text, w[..i])
    {
      assert w[..i + 1] == w[..i] + [w[i]];
      p.Feed(w[i]);
      i := i + 1;
    }
    assert w[..i] == w;
    verdict := p.e1.kind;
  }

  /** The sink absorbs. */
  lemma {:induction false} NeqAbsorbs(text: seq<byte>, w: seq<byte>, more: seq<byte>)
    requires Verdict(text, w) == Neq
    ensures Verdict(text, w + more) == Neq
    decreases |more|
  {
    if more == [] {
      assert w + more == w;
    } else {
      PrefixSnoc(text, w, more[0]);
      assert w + more == w + [more[0]] + more[1..];
      NeqAbsorbs(text, w + [more[0]], more[1..]);
    }
  }

  /** What the verdicts mean, letter by letter. */
  lemma VerdictMeans(text: seq<byte>, w: seq<byte>)
    ensures Verdict(text, w) == Eq <==> |w| == |text| && forall i :: 0 <= i < |w| ==> SameLetter(w[i], text[i])
    ensures Verdict(text, w) == MayEq <==> |w| < |text| && forall i :: 0 <= i < |w| ==> SameLetter(w[i], text[i])
  {
    forall i | 0 <= i < |w| && i < |text|
      ensures SameLetter(w[i], text[i]) <==> Lower(w[i]) == Lower(text[i])
    {
      BothCases(w[i], text[i]);
    }
    forall i | 0 <= i < |w|
      ensures Fold(w)[i] == Lower(w[i])
    {
      FoldAt(w, i);
    }
    forall i | 0 <= i < |text|
      ensures Fold(text)[i] == Lower(text[i])
    {
      FoldAt(text, i);
    }
    if |w| <= |text| && forall i :: 0 <= i < |w| ==> Lower(w[i]) == Lower(text[i]) {
      assert Fold(w) == Fold(text)[..|w|];
    }
    if Fold(w) <= Fold(text) {
      assert forall i :: 0 <= i < |w| ==> Fold(w)[i] == Fold(text)[i];
    }
  }
}
