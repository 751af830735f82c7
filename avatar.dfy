/**
 * The avatar's text fallback: the given fallback text, else up to two upper-cased initials of
 * the words of the alt text, else "?". Words are what `split(" ")` produces, and empty words
 * contribute no initial.
 */
module Avatar {
  import opened ChatTypes

  /** `s.split(" ")`: the pieces between single spaces; consecutive spaces give empty pieces. */
  function Split(s: string): (r: seq<string>)
    ensures |r| >= 1
    ensures forall w :: w in r ==> ' ' !in w
  {
    if s == [] then [""]
    else
      var rest := Split(s[1..]);
      if s[0] == ' ' then [""] + rest
      else [[s[0]] + rest[0]] + rest[1..]
  }

  /** `words.join(" ")` */
  function JoinWithSpaces(words: seq<string>): string
    requires |words| >= 1
  {
    if |words| == 1 then words[0] else words[0] + " " + JoinWithSpaces(words[1..])
  }

  /** Joining the pieces restores the text. */
  lemma {:induction false} JoinSplit(s: string)
    ensures JoinWithSpaces(Split(s)) == s
  {
    if s != [] {
      var rest := Split(s[1..]);
      JoinSplit(s[1..]);
      if s[0] == ' ' {
        assert ([""] + rest)[1..] == rest;
        assert s == [' '] + s[1..];
      } else {
        var ws := [[s[0]] + rest[0]] + rest[1..];
        assert ws[1..] == rest[1..];
        if |rest| > 1 {
          assert JoinWithSpaces(rest) == rest[0] + " " + JoinWithSpaces(rest[1..]);
        }
        assert s == [s[0]] + s[1..];
      }
    }
  }

  /** Splitting a join of space-free words gives the words back. */
  lemma {:induction false} SplitJoin(words: seq<string>)
    requires |words| >= 1 && forall w :: w in words ==> ' ' !in w
    ensures Split(JoinWithSpaces(words)) == words
    decreases |words|, |words[0]|
  {
    var s := JoinWithSpaces(words);
    if words[0] == [] {
      if |words| > 1 {
        assert words[1..][0] in words[1..];
        SplitJoin(words[1..]);
        assert s == [' '] + JoinWithSpaces(words[1..]);
        SplitCons(' ', JoinWithSpaces(words[1..]));
        assert words == [""] + words[1..];
      }
    } else {
      var c := words[0][0];
      var shorter := [words[0][1..]] + words[1..];
      assert words[0] in words;
      assert forall w :: w in shorter ==> ' ' !in w;
      SplitJoin(shorter);
      JoinFirst(words);
      SplitCons(c, JoinWithSpaces(shorter));
      assert shorter[0] == words[0][1..] && shorter[1..] == words[1..];
      assert words[0] == [c] + shorter[0];
      assert words == [words[0]] + words[1..];
    }
  }

  /** Splitting text that starts with `c`: a space opens an empty piece, anything else extends the first piece. */
  lemma SplitCons(c: char, t: string)
    ensures Split([c] + t) == if c == ' ' then [""] + Split(t) else [[c] + Split(t)[0]] + Split(t)[1..]
  {
    assert ([c] + t)[1..] == t;
  }

  /** Joining words whose first word is non-empty starts with that word's first character. */
  lemma JoinFirst(words: seq<string>)
    requires |words| >= 1 && words[0] != []
    ensures JoinWithSpaces(words) == [words[0][0]] + JoinWithSpaces([words[0][1..]] + words[1..])
  {
    var w := words[0];
    var shorter := [w[1..]] + words[1..];
    assert w == [w[0]] + w[1..];
    if |words| == 1 {
      assert shorter == [w[1..]];
    } else {
      var rest := JoinWithSpaces(words[1..]);
      assert shorter[0] == w[1..] && shorter[1..] == words[1..];
      assert JoinWithSpaces(words) == (w + " ") + rest;
      assert JoinWithSpaces(shorter) == (w[1..] + " ") + rest;
      ConsConcat(w[0], w[1..], " ", rest);
    }
  }

  /** Concatenation regrouped around a leading element. */
  lemma ConsConcat<T>(x: T, a: seq<T>, b: seq<T>, c: seq<T>)
    ensures (([x] + a) + b) + c == [x] + ((a + b) + c)
  {
  }

  /** `n[0]` joined: the first character of each piece, an empty piece giving nothing. */
  function Heads(words: seq<string>): string {
    if words == [] then "" else (if words[0] == "" then "" else [words[0][0]]) + Heads(words[1..])
  }

  /**
   * The initials as a reference definition: every non-space character that starts the text
   * (`atStart`) or follows a space.
   */
  function WordStarts(s: string, atStart: bool): string {
    if s == [] then ""
    else (if s[0] != ' ' && atStart then [s[0]] else "") + WordStarts(s[1..], s[0] == ' ')
  }

  /** The heads of the pieces are exactly the word starts; the pieces after the first give the rest. */
  lemma {:induction false} HeadsOfSplit(s: string)
    ensures Heads(Split(s)) == WordStarts(s, true)
    ensures Heads(Split(s)[1..]) == WordStarts(s, false)
  {
    if s != [] {
      var rest := Split(s[1..]);
      HeadsOfSplit(s[1..]);
      if s[0] == ' ' {
        assert ([""] + rest)[1..] == rest;
      } else {
        var ws := [[s[0]] + rest[0]] + rest[1..];
        assert ws[1..] == rest[1..];
        assert Heads(ws) == [s[0]] + Heads(rest[1..]);
      }
    }
  }

  /** `toUpperCase` restricted to ASCII letters. */
  function UpperChar(ch: char): char {
    if 'a' <= ch <= 'z' then (ch as int - 32) as char else ch
  }

  function Upper(s: string): (r: string)
    ensures |r| == |s| && forall i :: 0 <= i < |s| ==> r[i] == UpperChar(s[i])
  {
    seq(|s|, i requires 0 <= i < |s| => UpperChar(s[i]))
  }

  /** `s.slice(0, n)` */
  function Prefix(s: string, n: nat): (r: string)
    ensures |r| <= n && r <= s
    ensures |s| >= n ==> |r| == n
  {
    if |s| <= n then s else s[..n]
  }

  /**
   * `initials`: a truthy fallback as is; otherwise, for a truthy alt, the first two word
   * starts of the alt text, upper-cased (no space among them); otherwise "?".
   */
  function Initials(fallback: Option<string>, alt: Option<string>): (r: string)
    ensures Truthy(fallback) ==> r == fallback.value
    ensures !Truthy(fallback) && !Truthy(alt) ==> r == "?"
    ensures !Truthy(fallback) && Truthy(alt) ==>
              |r| <= 2 && r == Prefix(Upper(WordStarts(alt.value, true)), 2) && ' ' !in r
  {
    if Truthy(fallback) then fallback.value
    else if Truthy(alt) then
      HeadsOfSplit(alt.value);
      NoSpaceStarts(alt.value, true);
      Prefix(Upper(Heads(Split(alt.value))), 2)
    else "?"
  }

  /** No word start is a space. */
  lemma {:induction false} NoSpaceStarts(s: string, atStart: bool)
    ensures ' ' !in Upper(WordStarts(s, atStart))
  {
    if s != [] {
      NoSpaceStarts(s[1..], s[0] == ' ');
      var head := if s[0] != ' ' && atStart then [s[0]] else "";
      assert Upper(WordStarts(s, atStart)) == Upper(head) + Upper(WordStarts(s[1..], s[0] == ' '));
    }
  }

  /** An alt text of spaces only yields no initials at all: the result is empty, not "?". */
  lemma {:induction false} BlankAltGivesEmpty(alt: string)
    requires alt != "" && forall i :: 0 <= i < |alt| ==> alt[i] == ' '
    ensures Initials(None, Some(alt)) == ""
  {
    AllSpacesNoStarts(alt, true);
  }

  lemma {:induction false} AllSpacesNoStarts(s: string, atStart: bool)
    requires forall i :: 0 <= i < |s| ==> s[i] == ' '
    ensures WordStarts(s, atStart) == ""
  {
    if s != [] {
      AllSpacesNoStarts(s[1..], true);
    }
  }
}
