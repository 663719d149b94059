/** Position keys and key triples. Each of the twelve board positions is
    named by one key of the keyboard block q w e r / a s d f / z x c v; a
    Set or a guess is a string of three keys, and triples are compared after
    sorting their characters. */
module Keys {

  /** The key of each board position, in dealing order. */
  const KEYMAP: seq<char> := ['q', 'w', 'e', 'r', 'a', 's', 'd', 'f', 'z', 'x', 'c', 'v']

  /** The position a key names (-1 for a character that is not a key). */
  function KeyIndex(ch: char): (i: int)
    ensures -1 <= i < |KEYMAP|
    ensures i >= 0 ==> KEYMAP[i] == ch
  {
    match ch
    case 'q' => 0 case 'w' => 1 case 'e' => 2 case 'r' => 3
    case 'a' => 4 case 's' => 5 case 'd' => 6 case 'f' => 7
    case 'z' => 8 case 'x' => 9 case 'c' => 10 case 'v' => 11
    case _ => -1
  }

  /** Distinct positions have distinct keys. */
  lemma KeymapInjective(x: int, y: int)
    requires 0 <= x < |KEYMAP| && 0 <= y < |KEYMAP|
    requires KEYMAP[x] == KEYMAP[y]
    ensures x == y
  {
    assert KeyIndex(KEYMAP[x]) == x by { KeyIndexInverts(x); }
    assert KeyIndex(KEYMAP[y]) == y by { KeyIndexInverts(y); }
  }

  /** `KeyIndex` finds every key and only keys. */
  lemma KeyIndexFindsKeys(ch: char)
    ensures KeyIndex(ch) >= 0 <==> ch in KEYMAP
  {
    if ch in KEYMAP {
      var k :| 0 <= k < |KEYMAP| && KEYMAP[k] == ch;
      KeyIndexInverts(k);
    }
  }

  /** `KeyIndex` inverts the key map. */
  lemma KeyIndexInverts(x: int)
    requires 0 <= x < |KEYMAP|
    ensures KeyIndex(KEYMAP[x]) == x
  {
    if x < 6 {
      assert x == 0 || x == 1 || x == 2 || x == 3 || x == 4 || x == 5;
    } else {
      assert x == 6 || x == 7 || x == 8 || x == 9 || x == 10 || x == 11;
    }
  }

  /** Three characters are in ascending order. */
  predicate Sorted3(s: string)
    requires |s| == 3
  {
    s[0] <= s[1] <= s[2]
  }

  /** Some key occurs twice in a three-key guess. */
  predicate HasRepeatedKey(g: string)
    requires |g| == 3
  {
    g[0] == g[1] || g[1] == g[2] || g[0] == g[2]
  }

  /** The three characters of a string, counted with multiplicity. */
  function Chars(s: string): multiset<char>
    requires |s| == 3
  {
    multiset{s[0], s[1], s[2]}
  }

  /** The three characters of a guess in ascending order (Python's
      `''.join(sorted(guess))` on a three-character string). */
  function Sort3(s: string): (r: string)
    requires |s| == 3
    ensures |r| == 3 && Sorted3(r)
  {
    var a, b, c := s[0], s[1], s[2];
    if a <= b then
      if b <= c then [a, b, c]
      else if a <= c then [a, c, b]
      else [c, a, b]
    else
      if a <= c then [b, a, c]
      else if b <= c then [b, c, a]
      else [c, b, a]
  }

  /** Sorting only reorders the three characters. */
  lemma Sort3Permutes(s: string)
    requires |s| == 3
    ensures Chars(Sort3(s)) == Chars(s)
  {
  }

  /** The sorted guess repeats a character exactly when the guess repeats a key. */
  lemma Sort3Repeats(s: string)
    requires |s| == 3
    ensures var r := Sort3(s); r[0] == r[1] || r[1] == r[2] <==> HasRepeatedKey(s)
  {
  }

  /** Two ascending three-character strings with the same characters are equal. */
  lemma SortedUnique(u: string, v: string)
    requires |u| == 3 && |v| == 3 && Sorted3(u) && Sorted3(v)
    requires Chars(u) == Chars(v)
    ensures u == v
  {
    assert u[0] in Chars(v) && u[2] in Chars(v);
    assert v[0] in Chars(u) && v[2] in Chars(u);
    assert u[0] == v[0] && u[2] == v[2];
    assert multiset{u[0], u[2]} + multiset{u[1]} == multiset{u[0], u[2]} + multiset{v[1]};
    assert multiset{u[1]} == multiset{v[1]};
    assert u[1] in multiset{v[1]};
    assert u == [u[0], u[1], u[2]] && v == [v[0], v[1], v[2]];
  }

  /** Sorting depends only on the characters, not on their order. */
  lemma Sort3Canonical(s: string, t: string)
    requires |s| == 3 && |t| == 3 && Chars(s) == Chars(t)
    ensures Sort3(s) == Sort3(t)
  {
    Sort3Permutes(s);
    Sort3Permutes(t);
    SortedUnique(Sort3(s), Sort3(t));
  }

  /** A character that names a board position. */
  predicate IsKey(ch: char) {
    KeyIndex(ch) >= 0
  }

  /** A canonical Set key: three distinct keys in ascending order. */
  predicate IsCanonical(t: string) {
    |t| == 3 && t[0] < t[1] < t[2] && IsKey(t[0]) && IsKey(t[1]) && IsKey(t[2])
  }

  /** The stored key of the position triple (a, b, c). */
  function Key(a: int, b: int, c: int): (t: string)
    requires 0 <= a < |KEYMAP| && 0 <= b < |KEYMAP| && 0 <= c < |KEYMAP|
    ensures |t| == 3 && Sorted3(t)
  {
    var keys := [KEYMAP[a], KEYMAP[b], KEYMAP[c]];
    Sort3(keys)
  }

  /** A key holds the keys of its three positions. */
  lemma KeyChars(a: int, b: int, c: int)
    requires 0 <= a < |KEYMAP| && 0 <= b < |KEYMAP| && 0 <= c < |KEYMAP|
    ensures Chars(Key(a, b, c)) == multiset{KEYMAP[a], KEYMAP[b], KEYMAP[c]}
  {
    Sort3Permutes([KEYMAP[a], KEYMAP[b], KEYMAP[c]]);
  }

  /** The key of three distinct positions is canonical. */
  lemma KeyCanonical(a: int, b: int, c: int)
    requires 0 <= a < |KEYMAP| && 0 <= b < |KEYMAP| && 0 <= c < |KEYMAP|
    requires a != b && b != c && a != c
    ensures IsCanonical(Key(a, b, c))
  {
    var t := Key(a, b, c);
    KeyChars(a, b, c);
    if KEYMAP[a] == KEYMAP[b] { KeymapInjective(a, b); }
    if KEYMAP[b] == KEYMAP[c] { KeymapInjective(b, c); }
    if KEYMAP[a] == KEYMAP[c] { KeymapInjective(a, c); }
    KeyIndexInverts(a);
    KeyIndexInverts(b);
    KeyIndexInverts(c);
    assert t[0] in Chars(t) && t[1] in Chars(t) && t[2] in Chars(t);
  }

  /** Different ascending position triples have different keys. */
  lemma KeyInjective(a: int, b: int, c: int, x: int, y: int, z: int)
    requires 0 <= a < b < c < |KEYMAP| && 0 <= x < y < z < |KEYMAP|
    requires Key(a, b, c) == Key(x, y, z)
    ensures a == x && b == y && c == z
  {
    KeyChars(a, b, c);
    KeyChars(x, y, z);
    var m := multiset{KEYMAP[x], KEYMAP[y], KEYMAP[z]};
    assert KEYMAP[a] in m && KEYMAP[b] in m && KEYMAP[c] in m;
    InTriple(a, x, y, z);
    InTriple(b, x, y, z);
    InTriple(c, x, y, z);
  }

  lemma InTriple(a: int, x: int, y: int, z: int)
    requires 0 <= a < |KEYMAP| && 0 <= x < |KEYMAP| && 0 <= y < |KEYMAP| && 0 <= z < |KEYMAP|
    requires KEYMAP[a] in multiset{KEYMAP[x], KEYMAP[y], KEYMAP[z]}
    ensures a == x || a == y || a == z
  {
    if KEYMAP[a] == KEYMAP[x] { KeymapInjective(a, x); }
    else if KEYMAP[a] == KEYMAP[y] { KeymapInjective(a, y); }
    else { KeymapInjective(a, z); }
  }

  /** Every canonical key is the key of an ascending position triple. */
  lemma CanonicalIsKey(t: string) returns (a: int, b: int, c: int)
    requires IsCanonical(t)
    ensures 0 <= a < b < c < |KEYMAP| && Key(a, b, c) == t
  {
    var i, j, k := KeyIndex(t[0]), KeyIndex(t[1]), KeyIndex(t[2]);
    assert [KEYMAP[i], KEYMAP[j], KEYMAP[k]] == t;
    a, b, c := SortPositions(i, j, k);
    GuessKey(i, j, k, a, b, c);
    Sort3Sorted(t);
  }

  /** Sorting an ascending string leaves it as it is. */
  lemma Sort3Sorted(s: string)
    requires |s| == 3 && Sorted3(s)
    ensures Sort3(s) == s
  {
    assert s == [s[0], s[1], s[2]];
  }

  /** A guess sorts to the key of its positions, whatever their order. */
  lemma GuessKey(x: int, y: int, z: int, a: int, b: int, c: int)
    requires 0 <= x < |KEYMAP| && 0 <= y < |KEYMAP| && 0 <= z < |KEYMAP|
    requires (a, b, c) in {(x, y, z), (y, x, z), (y, z, x), (x, z, y), (z, y, x), (z, x, y)}
    ensures Sort3([KEYMAP[x], KEYMAP[y], KEYMAP[z]]) == Key(a, b, c)
  {
    var g := [KEYMAP[x], KEYMAP[y], KEYMAP[z]];
    var h := [KEYMAP[a], KEYMAP[b], KEYMAP[c]];
    PermutedChars(g, h, x, y, z, a, b, c);
    Sort3Canonical(g, h);
  }

  lemma PermutedChars(g: string, h: string, x: int, y: int, z: int, a: int, b: int, c: int)
    requires 0 <= x < |KEYMAP| && 0 <= y < |KEYMAP| && 0 <= z < |KEYMAP|
    requires (a, b, c) in {(x, y, z), (y, x, z), (y, z, x), (x, z, y), (z, y, x), (z, x, y)}
    requires g == [KEYMAP[x], KEYMAP[y], KEYMAP[z]] && h == [KEYMAP[a], KEYMAP[b], KEYMAP[c]]
    ensures Chars(g) == Chars(h)
  {
  }

  /** Three different positions in ascending order. */
  lemma SortPositions(x: int, y: int, z: int) returns (a: int, b: int, c: int)
    requires x != y && y != z && x != z
    ensures a < b < c
    ensures (a, b, c) in {(x, y, z), (y, x, z), (y, z, x), (x, z, y), (z, y, x), (z, x, y)}
  {
    if x < y {
      if y < z { a, b, c := x, y, z; }
      else if x < z { a, b, c := x, z, y; }
      else { a, b, c := z, x, y; }
    } else {
      if x < z { a, b, c := y, x, z; }
      else if y < z { a, b, c := y, z, x; }
      else { a, b, c := z, y, x; }
    }
  }
}
