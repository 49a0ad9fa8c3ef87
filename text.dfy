/** The string primitives the source takes from Python: `str.lower()`,
    `str.split()`, the substring test `t in s`, `str.join`-style
    concatenation, `len`, and the decimal rendering of an int in an f-string. */
module Text {

  /** `c.isspace()` restricted to ASCII: space, tab, line feed, vertical tab,
      form feed, carriage return and the four separators 0x1C-0x1F. */
  predicate IsSpace(c: char) {
    c == ' ' || c == '\t' || c == '\n' || c == '\r' || c == '\U{B}' || c == '\U{C}'
    || ('\U{1C}' <= c <= '\U{1F}')
  }

  predicate AllSpace(s: string) {
    forall i :: 0 <= i < |s| ==> IsSpace(s[i])
  }

  predicate NoSpace(s: string) {
    forall i :: 0 <= i < |s| ==> !IsSpace(s[i])
  }

  /** ASCII `str.lower()` on one character. */
  function LowerChar(c: char): char {
    if 'A' <= c <= 'Z' then (c as int - 'A' as int + 'a' as int) as char else c
  }

  /** ASCII `str.lower()`. */
  function Lower(s: string): (r: string)
    ensures |r| == |s|
    ensures forall i :: 0 <= i < |s| ==> r[i] == LowerChar(s[i])
  {
    seq(|s|, i requires 0 <= i < |s| => LowerChar(s[i]))
  }

  /** `t` occurs in `s` starting at index `i`. */
  predicate OccursAt(s: string, t: string, i: nat) {
    i + |t| <= |s| && s[i..i + |t|] == t
  }

  /** Where each of four concatenated pieces occurs in the whole. */
  lemma OccursInFour(a: string, b: string, c: string, d: string)
    ensures OccursAt(a + b + c + d, b, |a|)
    ensures OccursAt(a + b + c + d, c, |a| + |b|)
    ensures OccursAt(a + b + c + d, d, |a| + |b| + |c|)
  {
    var s := a + b + c + d;
    assert s[|a|..|a| + |b|] == b;
    assert s[|a| + |b|..|a| + |b| + |c|] == c;
    assert s[|a| + |b| + |c|..|a| + |b| + |c| + |d|] == d;
  }

  /** Python's `t in s` for strings. */
  predicate Contains(s: string, t: string) {
    exists i: nat | i <= |s| :: OccursAt(s, t, i)
  }

  /** `"".join(parts)` */
  function Concat(parts: seq<string>): string {
    if parts == [] then "" else parts[0] + Concat(parts[1..])
  }

  lemma {:induction false} ConcatAppend(parts: seq<string>, last: string)
    ensures Concat(parts + [last]) == Concat(parts) + last
  {
    if parts == [] {
      assert [] + [last] == [last];
    } else {
      assert (parts + [last])[1..] == parts[1..] + [last];
      ConcatAppend(parts[1..], last);
    }
  }

  lemma AppendAssoc(a: string, b: string, c: string)
    ensures (a + b) + c == a + (b + c)
  {
  }

  /** The non-whitespace characters of `s`, in order. */
  function Visible(s: string): string {
    if s == [] then "" else (if IsSpace(s[0]) then "" else [s[0]]) + Visible(s[1..])
  }

  /** Scanner behind `Split`: `word` is the word read so far. */
  function SplitFrom(s: string, word: string): (words: seq<string>)
    requires NoSpace(word)
    ensures forall k :: 0 <= k < |words| ==> words[k] != "" && NoSpace(words[k])
    ensures words == [] <==> word == "" && AllSpace(s)
    decreases |s|
  {
    if s == [] then
      (if word == "" then [] else [word])
    else if IsSpace(s[0]) then
      var rest := SplitFrom(s[1..], "");
      if word == "" then rest else [word] + rest
    else
      SplitFrom(s[1..], word + [s[0]])
  }

  /** The scanner loses no visible character and adds none: its words
      joined are the partial word followed by the visible rest. */
  lemma {:induction false} SplitFromVisible(s: string, word: string)
    requires NoSpace(word)
    ensures Concat(SplitFrom(s, word)) == word + Visible(s)
    decreases |s|
  {
    if s == [] {
      if word != "" {
        assert Concat([word]) == word + Concat([]);
      }
    } else if IsSpace(s[0]) {
      var rest := SplitFrom(s[1..], "");
      SplitFromVisible(s[1..], "");
      assert Visible(s) == Visible(s[1..]);
      if word != "" {
        assert ([word] + rest)[1..] == rest;
      }
    } else {
      SplitFromVisible(s[1..], word + [s[0]]);
      assert Visible(s) == [s[0]] + Visible(s[1..]);
      AppendAssoc(word, [s[0]], Visible(s[1..]));
    }
  }

  /** Python's `s.split()` with no separator: the maximal runs of
      non-whitespace characters. No word is empty or holds whitespace, the
      words together are exactly the visible characters of `s`, and there is
      no word at all iff `s` is blank. */
  function Split(s: string): (words: seq<string>)
    ensures forall k :: 0 <= k < |words| ==> words[k] != "" && NoSpace(words[k])
    ensures words == [] <==> AllSpace(s)
    ensures Concat(words) == Visible(s)
  {
    SplitFromVisible(s, "");
    SplitFrom(s, "")
  }

  /** `w` is a maximal run of non-whitespace characters of `s`, starting at
      index `i`: it occurs there and has whitespace or an end of `s` on
      either side. */
  predicate RunAt(s: string, w: string, i: nat) {
    && w != "" && NoSpace(w) && OccursAt(s, w, i)
    && (i == 0 || IsSpace(s[i - 1]))
    && (i + |w| == |s| || IsSpace(s[i + |w|]))
  }

  /** Where in `word + s` the words of `SplitFrom(s, word)` start. */
  ghost function SplitPositions(s: string, word: string): seq<nat>
    decreases |s|
  {
    if s == [] then
      (if word == "" then [] else [0])
    else if IsSpace(s[0]) then
      var rest := SplitPositions(s[1..], "");
      var shifted := seq(|rest|, j requires 0 <= j < |rest| => |word| + 1 + rest[j]);
      if word == "" then shifted else [0] + shifted
    else
      SplitPositions(s[1..], word + [s[0]])
  }

  /** A run of `u` stays a run behind a prefix that ends in whitespace. */
  lemma RunShift(p: string, u: string, w: string, i: nat)
    requires RunAt(u, w, i)
    requires p == "" || IsSpace(p[|p| - 1])
    ensures RunAt(p + u, w, |p| + i)
  {
    var t := p + u;
    assert t[|p| + i..|p| + i + |w|] == u[i..i + |w|];
    if i == 0 && p != "" {
      assert t[|p| - 1] == p[|p| - 1];
    } else if i > 0 {
      assert t[|p| + i - 1] == u[i - 1];
    }
    if i + |w| < |u| {
      assert t[|p| + i + |w|] == u[i + |w|];
    }
  }

  /** `words` are maximal runs of `t` starting at the strictly increasing
      positions `pos`. */
  predicate RunsAt(t: string, words: seq<string>, pos: seq<nat>) {
    && |pos| == |words|
    && (forall k :: 0 <= k < |words| ==> RunAt(t, words[k], pos[k]))
    && (forall j, k :: 0 <= j < k < |pos| ==> pos[j] < pos[k])
  }

  /** Runs of `u` stay runs behind a prefix that ends in whitespace. */
  lemma ShiftRuns(p: string, u: string, words: seq<string>, pos: seq<nat>, shifted: seq<nat>)
    requires p == "" || IsSpace(p[|p| - 1])
    requires RunsAt(u, words, pos)
    requires |shifted| == |pos| && forall j :: 0 <= j < |pos| ==> shifted[j] == |p| + pos[j]
    ensures RunsAt(p + u, words, shifted)
  {
    forall j | 0 <= j < |words| ensures RunAt(p + u, words[j], shifted[j]) {
      RunShift(p, u, words[j], pos[j]);
    }
  }

  /** A run at the very start goes before runs that start later. */
  lemma ConsRun(t: string, w: string, words: seq<string>, pos: seq<nat>)
    requires RunAt(t, w, 0) && RunsAt(t, words, pos)
    requires forall j :: 0 <= j < |pos| ==> 0 < pos[j]
    ensures RunsAt(t, [w] + words, [0] + pos)
  {
    assert forall k :: 0 < k < |words| + 1 ==> ([w] + words)[k] == words[k - 1] && ([0] + pos)[k] == pos[k - 1];
  }

  /** The scanner's step at a whitespace character `c`: the word read so far
      (if any) ends there, and the runs of the rest `u` follow, shifted. */
  lemma SplitSpaceStep(word: string, c: char, u: string, rest: seq<string>, rp: seq<nat>,
                       words: seq<string>, pos: seq<nat>)
    requires NoSpace(word) && IsSpace(c)
    requires RunsAt(u, rest, rp)
    requires words == (if word == "" then [] else [word]) + rest
    requires pos == (if word == "" then [] else [0])
                    + seq(|rp|, j requires 0 <= j < |rp| => |word| + 1 + rp[j])
    ensures RunsAt(word + [c] + u, words, pos)
  {
    var p := word + [c];
    var shifted := seq(|rp|, j requires 0 <= j < |rp| => |word| + 1 + rp[j]);
    ShiftRuns(p, u, rest, rp, shifted);
    if word == "" {
      assert words == rest && pos == shifted;
    } else {
      var t := p + u;
      assert t[0..|word|] == word;
      assert t[|word|] == c;
      assert RunAt(t, word, 0);
      ConsRun(t, word, rest, shifted);
      assert words == [word] + rest && pos == [0] + shifted;
    }
  }

  /** The scanner's words are the maximal runs of `word + s`, at strictly
      increasing positions. */
  lemma {:induction false} SplitFromRuns(s: string, word: string)
    requires NoSpace(word)
    ensures RunsAt(word + s, SplitFrom(s, word), SplitPositions(s, word))
    decreases |s|
  {
    if s == [] {
      if word != "" {
        assert (word + s)[0..|word|] == word;
      }
    } else if IsSpace(s[0]) {
      SplitFromRuns(s[1..], "");
      assert "" + s[1..] == s[1..];
      assert word + s == word + [s[0]] + s[1..];
      SplitSpaceStep(word, s[0], s[1..], SplitFrom(s[1..], ""), SplitPositions(s[1..], ""),
                     SplitFrom(s, word), SplitPositions(s, word));
    } else {
      var w' := word + [s[0]];
      assert word + s == w' + s[1..];
      SplitFromRuns(s[1..], w');
    }
  }

  /** `s.split()` returns exactly the maximal runs of non-whitespace of `s`,
      in order: the k-th word is a maximal run starting at `pos[k]`, the
      positions strictly increase, and (by `Split`'s own contract) the words
      cover every visible character, so no run is skipped or cut. */
  lemma SplitIsMaximalRuns(s: string)
    ensures RunsAt(s, Split(s), SplitPositions(s, ""))
    ensures Concat(Split(s)) == Visible(s)
  {
    SplitFromRuns(s, "");
    assert "" + s == s;
  }

  /** No element occurs twice. */
  predicate Distinct<T(==)>(xs: seq<T>) {
    forall i, j :: 0 <= i < j < |xs| ==> xs[i] != xs[j]
  }

  function Elems<T>(xs: seq<T>): set<T> {
    set x | x in xs
  }

  /** Extending a selection of `init` by possibly the next element. */
  lemma SelectionSnoc<T>(init: seq<T>, last: T, r0: seq<T>, pos0: seq<nat>, hit: bool)
    requires |r0| == |pos0|
    requires forall j :: 0 <= j < |r0| ==> pos0[j] < |init| && r0[j] == init[pos0[j]]
    ensures var ms := init + [last];
      var r := r0 + (if hit then [last] else []);
      var pos := pos0 + (if hit then [|init|] else []);
      forall j :: 0 <= j < |r| ==> r[j] == ms[pos[j]]
  {
  }

  /** Appending an element not yet listed keeps the list free of repeats. */
  lemma SnocDistinct<T>(xs: seq<T>, x: T)
    requires Distinct(xs) && x !in Elems(xs)
    ensures Elems(xs + [x]) == Elems(xs) + {x}
    ensures Distinct(xs + [x])
  {
    assert forall i :: 0 <= i < |xs| ==> (xs + [x])[i] == xs[i];
  }

  /** `list(some_set)`: the elements of `s`, each once, in an order the model
      leaves open (Python's is the set's hash order). */
  method SetToSeq(s: set<string>) returns (xs: seq<string>)
    ensures Elems(xs) == s
    ensures Distinct(xs)
    ensures |xs| == |s|
  {
    xs := [];
    var rest := s;
    while rest != {}
      invariant rest + Elems(xs) == s
      invariant rest !! Elems(xs)
      invariant Distinct(xs)
      invariant |xs| + |rest| == |s|
      decreases |rest|
    {
      var x :| x in rest;
      SnocDistinct(xs, x);
      xs := xs + [x];
      rest := rest - {x};
    }
  }

  function DigitChar(d: nat): char
    requires d < 10
  {
    (d + '0' as int) as char
  }

  /** `str(n)` for a non-negative int: decimal digits, with no leading zero. */
  function NatToString(n: nat): (r: string)
    ensures r != ""
    ensures forall i :: 0 <= i < |r| ==> '0' <= r[i] <= '9'
    ensures n > 0 ==> r[0] != '0'
    ensures |r| > 1 ==> r[0] != '0'
  {
    if n < 10 then [DigitChar(n)] else NatToString(n / 10) + [DigitChar(n % 10)]
  }

  /** `int(s)` for a string of decimal digits. */
  function DigitsValue(s: string): nat
    requires forall i :: 0 <= i < |s| ==> '0' <= s[i] <= '9'
  {
    if s == [] then 0
    else 10 * DigitsValue(s[..|s| - 1]) + (s[|s| - 1] as int - '0' as int)
  }

  /** The count written into a message can be read back: `int(str(n)) == n`. */
  lemma {:induction false} NatToStringRoundTrip(n: nat)
    ensures DigitsValue(NatToString(n)) == n
  {
    var r := NatToString(n);
    if n >= 10 {
      assert r[..|r| - 1] == NatToString(n / 10);
      NatToStringRoundTrip(n / 10);
    }
  }
}
