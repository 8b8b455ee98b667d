/** Scope lists and their canonical rendering: the credential stores its
    scopes as one string, the list joined with single spaces. */
module Scopes {

  /** `' '.join(scopes)`: the elements in order, one space between two
      neighbours, nothing before the first or after the last. */
  function Join(scopes: seq<string>): (joined: string)
    ensures |scopes| >= 1 ==> |joined| == TotalLength(scopes) + |scopes| - 1
    ensures |scopes| >= 1 ==> scopes[0] <= joined
  {
    if |scopes| == 0 then ""
    else if |scopes| == 1 then scopes[0]
    else scopes[0] + " " + Join(scopes[1..])
  }

  /** The number of characters in all the scopes together. */
  function TotalLength(scopes: seq<string>): nat
  {
    if |scopes| == 0 then 0 else |scopes[0]| + TotalLength(scopes[1..])
  }

  predicate SpaceFree(word: string)
  {
    ' ' !in word
  }

  /** `s.split(' ')`: the pieces of `s` between single spaces, empty ones
      included, in order. The reference definition against which Join is
      checked. */
  function Split(s: string): (parts: seq<string>)
    ensures |parts| >= 1
    ensures forall i :: 0 <= i < |parts| ==> SpaceFree(parts[i])
  {
    if |s| == 0 then [""]
    else
      var rest := Split(s[1..]);
      if s[0] == ' ' then [""] + rest
      else [[s[0]] + rest[0]] + rest[1..]
  }

  /** Prefixing the first element prefixes the joined string. */
  lemma {:induction false} JoinPrefixHead(prefix: string, scopes: seq<string>)
    requires |scopes| >= 1
    ensures Join([prefix + scopes[0]] + scopes[1..]) == prefix + Join(scopes)
  {
    var longer := [prefix + scopes[0]] + scopes[1..];
    assert |longer| == |scopes| && longer[0] == prefix + scopes[0];
    if |scopes| > 1 {
      assert longer[1..] == scopes[1..];
      assert Join(longer) == (prefix + scopes[0]) + " " + Join(scopes[1..]);
      assert Join(scopes) == scopes[0] + " " + Join(scopes[1..]);
    }
  }

  /** Joining the pieces of a string gives the string back. */
  lemma {:induction false} JoinSplit(s: string)
    ensures Join(Split(s)) == s
  {
    if |s| > 0 {
      var rest := Split(s[1..]);
      JoinSplit(s[1..]);
      if s[0] == ' ' {
        assert ([""] + rest)[1..] == rest;
      } else {
        JoinPrefixHead([s[0]], rest);
      }
    }
  }

  /** A string without spaces is a single piece. */
  lemma {:induction false} SplitSpaceFree(word: string)
    requires SpaceFree(word)
    ensures Split(word) == [word]
  {
    if |word| > 0 {
      SplitSpaceFree(word[1..]);
      assert [word[0]] + word[1..] == word;
    }
  }

  /** A space-free word followed by a space splits off as the first piece. */
  lemma {:induction false} SplitAfterWord(word: string, tail: string)
    requires SpaceFree(word)
    ensures Split(word + " " + tail) == [word] + Split(tail)
  {
    var s := word + " " + tail;
    if |word| == 0 {
      assert s[1..] == tail;
    } else {
      assert s[1..] == word[1..] + " " + tail;
      SplitAfterWord(word[1..], tail);
      assert [word[0]] + word[1..] == word;
    }
  }

  /** Splitting a joined list of space-free scopes gives the list back:
      the joined string keeps every scope and their order. */
  lemma {:induction false} SplitJoin(scopes: seq<string>)
    requires |scopes| >= 1
    requires forall i :: 0 <= i < |scopes| ==> SpaceFree(scopes[i])
    ensures Split(Join(scopes)) == scopes
  {
    if |scopes| == 1 {
      SplitSpaceFree(scopes[0]);
    } else {
      SplitJoin(scopes[1..]);
      SplitAfterWord(scopes[0], Join(scopes[1..]));
      assert [scopes[0]] + scopes[1..] == scopes;
    }
  }

  /** Joining two non-empty lists is joining each, with one space between. */
  lemma {:induction false} JoinAppend(front: seq<string>, back: seq<string>)
    requires |front| >= 1 && |back| >= 1
    ensures Join(front + back) == Join(front) + " " + Join(back)
  {
    if |front| > 1 {
      assert (front + back)[1..] == front[1..] + back;
      JoinAppend(front[1..], back);
    } else {
      assert (front + back)[1..] == back;
    }
  }

  /** The joined string is empty exactly for the empty list and for the
      list holding one empty scope. */
  lemma JoinEmptyIff(scopes: seq<string>)
    ensures Join(scopes) == "" <==> scopes == [] || scopes == [""]
  {
    if |scopes| == 1 {
      assert scopes == [scopes[0]];
    }
  }
}
