/** The ticket dialog of the history page (src/components/MetroTicketDialog.jsx): it reads a
    metro booking back out of its transaction note with the regular expression
    `/Metro: (.+?) to (.+?) \((.+?)\)/`, under JavaScript's backtracking semantics. */
module MetroTicket {
  import opened Wrappers
  import opened Text
  import opened Store
  import opened Metro

  datatype MetroDetails = MetroDetails(from: string, to: string, line: string)

  /** Where one match of the expression sits: it starts at `p`; the three groups end at
      `i`, `j` and `k` (the index of the closing parenthesis). */
  datatype Match = Match(p: nat, i: nat, j: nat, k: nat)

  /** A lazy group `(.+?)` spanning `s[from..to]`: at least one character, none a line terminator. */
  predicate DotGroup(s: string, from: int, to: int) {
    0 <= from < to <= |s| && forall x | from <= x < to :: !IsLineTerminator(s[x])
  }

  /** `(.+?)\)` matches `s[c..k + 1]`. */
  predicate LineTail(s: string, c: int, k: int) {
    DotGroup(s, c, k) && k < |s| && s[k] == ')'
  }

  /** `(.+?) \((.+?)\)` matches from `b`, the groups ending at `j` and `k`. */
  predicate ToTail(s: string, b: int, j: int, k: int) {
    DotGroup(s, b, j) && OccursAt(s, " (", j) && LineTail(s, j + 2, k)
  }

  /** `(.+?) to (.+?) \((.+?)\)` matches from `a`, the groups ending at `i`, `j` and `k`. */
  predicate FromTail(s: string, a: int, i: int, j: int, k: int) {
    DotGroup(s, a, i) && OccursAt(s, " to ", i) && ToTail(s, i + 4, j, k)
  }

  /** The expression matches `s` with these group boundaries. */
  predicate MatchesAt(s: string, m: Match) {
    OccursAt(s, "Metro: ", m.p) && FromTail(s, m.p + 7, m.i, m.j, m.k)
  }

  /** `\((.+?)\)` after the opening parenthesis: the group takes its first character
      whatever it is, then ends at the first `)`, unless a line terminator comes first. */
  function LineGroup(s: string, c: nat): (k: Option<nat>)
    ensures k.Some? ==> LineTail(s, c, k.value)
  {
    if c >= |s| || IsLineTerminator(s[c]) then None else CloseAfter(s, c, c + 1)
  }

  function CloseAfter(s: string, c: nat, k: nat): (r: Option<nat>)
    requires DotGroup(s, c, k)
    ensures r.Some? ==> k <= r.value < |s| && DotGroup(s, c, r.value) && s[r.value] == ')'
    decreases |s| - k
  {
    if k >= |s| then None
    else if s[k] == ')' then Some(k)
    else if IsLineTerminator(s[k]) then None
    else CloseAfter(s, c, k + 1)
  }

  /** `(.+?) \(` for the destination, the group so far being `s[b..j]`: first try to go on
      with ` (` and the line group, then take one more character. */
  function ToGroup(s: string, b: nat, j: nat): (r: Option<(nat, nat)>)
    requires DotGroup(s, b, j)
    ensures r.Some? ==> j <= r.value.0 && ToTail(s, b, r.value.0, r.value.1)
    decreases |s| - j
  {
    if OccursAt(s, " (", j) && LineGroup(s, j + 2).Some? then Some((j, LineGroup(s, j + 2).value))
    else if j >= |s| || IsLineTerminator(s[j]) then None
    else ToGroup(s, b, j + 1)
  }

  function ToStart(s: string, b: nat): (r: Option<(nat, nat)>)
    ensures r.Some? ==> ToTail(s, b, r.value.0, r.value.1)
  {
    if b >= |s| || IsLineTerminator(s[b]) then None else ToGroup(s, b, b + 1)
  }

  /** `(.+?) to ` for the origin, the group so far being `s[a..i]`. */
  function FromGroup(s: string, a: nat, i: nat): (r: Option<(nat, nat, nat)>)
    requires DotGroup(s, a, i)
    ensures r.Some? ==> i <= r.value.0 && FromTail(s, a, r.value.0, r.value.1, r.value.2)
    decreases |s| - i
  {
    if OccursAt(s, " to ", i) && ToStart(s, i + 4).Some? then
      var jk := ToStart(s, i + 4).value;
      Some((i, jk.0, jk.1))
    else if i >= |s| || IsLineTerminator(s[i]) then None
    else FromGroup(s, a, i + 1)
  }

  function FromStart(s: string, a: nat): (r: Option<(nat, nat, nat)>)
    ensures r.Some? ==> FromTail(s, a, r.value.0, r.value.1, r.value.2)
  {
    if a >= |s| || IsLineTerminator(s[a]) then None else FromGroup(s, a, a + 1)
  }

  /** `String.prototype.match` without the global flag: the leftmost start that matches. */
  function Search(s: string, p: nat): (r: Option<Match>)
    ensures r.Some? ==> p <= r.value.p && MatchesAt(s, r.value)
    decreases |s| - p
  {
    if OccursAt(s, "Metro: ", p) && FromStart(s, p + 7).Some? then
      var ijk := FromStart(s, p + 7).value;
      Some(Match(p, ijk.0, ijk.1, ijk.2))
    else if p >= |s| then None
    else Search(s, p + 1)
  }

  /** The three captured groups of a match. */
  function Captures(s: string, m: Match): MetroDetails
    requires MatchesAt(s, m)
  {
    MetroDetails(s[m.p + 7..m.i], s[m.i + 4..m.j], s[m.j + 2..m.k])
  }

  /** `parseMetroDetails`: the captures of the match the expression finds, each non-empty. */
  function Parse(note: string): (r: Option<MetroDetails>)
    ensures r.Some? ==> exists p | 0 <= p < |note| :: OccursAt(note, Memo(r.value.from, r.value.to, r.value.line), p)
    ensures r.Some? ==> r.value.from != "" && r.value.to != "" && r.value.line != ""
  {
    match Search(note, 0)
    case None => None
    case Some(m) =>
      MatchSpellsMemo(note, m);
      Some(Captures(note, m))
  }

  /** The order in which the backtracking engine tries matches: an earlier start first, then,
      each group being lazy, a shorter origin, a shorter destination, a shorter line. */
  predicate Precedes(m: Match, n: Match) {
    m.p < n.p
    || (m.p == n.p && (m.i < n.i || (m.i == n.i && (m.j < n.j || (m.j == n.j && m.k <= n.k)))))
  }

  /** The lazy line group ends no later than any `)` it may end at. */
  lemma {:induction false} CloseAfterLeast(s: string, c: nat, k: nat, e: nat)
    requires DotGroup(s, c, k) && k <= e && LineTail(s, c, e)
    ensures CloseAfter(s, c, k).Some? && CloseAfter(s, c, k).value <= e
    decreases |s| - k
  {
    if k < e {
      assert s[k] != ')' ==> !IsLineTerminator(s[k]);
      CloseAfterLeast(s, c, k + 1, e);
    }
  }

  /** `\((.+?)\)` finds a closing `)` whenever there is one it may end at, and takes the first. */
  lemma LineGroupLeast(s: string, c: nat, e: nat)
    requires LineTail(s, c, e)
    ensures LineGroup(s, c).Some? && LineGroup(s, c).value <= e
  {
    CloseAfterLeast(s, c, c + 1, e);
  }

  /** The lazy destination group with the line group after it come no later, in the
      engine's order, than any other way for them to match. */
  lemma {:induction false} ToGroupLeast(s: string, b: nat, j: nat, j2: nat, k2: nat)
    requires DotGroup(s, b, j) && j <= j2 && ToTail(s, b, j2, k2)
    ensures ToGroup(s, b, j).Some?
    ensures var r := ToGroup(s, b, j).value; r.0 < j2 || (r.0 == j2 && r.1 <= k2)
    decreases |s| - j
  {
    if OccursAt(s, " (", j) && LineGroup(s, j + 2).Some? {
      ToGroupStops(s, b, j);
      if j == j2 {
        LineGroupLeast(s, j + 2, k2);
      }
    } else {
      if j == j2 {
        LineGroupLeast(s, j + 2, k2);
        assert false;
      }
      ToGroupGrows(s, b, j, j2);
      ToGroupLeast(s, b, j + 1, j2, k2);
    }
  }

  /** Once ` (` follows and the line group matches, the lazy destination group stops. */
  lemma ToGroupStops(s: string, b: nat, j: nat)
    requires DotGroup(s, b, j) && OccursAt(s, " (", j) && LineGroup(s, j + 2).Some?
    ensures ToGroup(s, b, j) == Some((j, LineGroup(s, j + 2).value))
  {
  }

  /** Short of a longer destination group that may still match, the lazy group takes one more character. */
  lemma ToGroupGrows(s: string, b: nat, j: nat, j2: nat)
    requires DotGroup(s, b, j2) && b < j < j2
    requires !(OccursAt(s, " (", j) && LineGroup(s, j + 2).Some?)
    ensures DotGroup(s, b, j + 1) && ToGroup(s, b, j) == ToGroup(s, b, j + 1)
  {
    assert !IsLineTerminator(s[j]);
  }

  lemma ToStartLeast(s: string, b: nat, j2: nat, k2: nat)
    requires ToTail(s, b, j2, k2)
    ensures ToStart(s, b).Some?
    ensures var r := ToStart(s, b).value; r.0 < j2 || (r.0 == j2 && r.1 <= k2)
  {
    ToGroupLeast(s, b, b + 1, j2, k2);
  }

  /** The lazy origin group with the rest after it come no later, in the engine's order,
      than any other way for the three groups to match. */
  lemma {:induction false} FromGroupLeast(s: string, a: nat, i: nat, i2: nat, j2: nat, k2: nat)
    requires DotGroup(s, a, i) && i <= i2 && FromTail(s, a, i2, j2, k2)
    ensures FromGroup(s, a, i).Some?
    ensures var r := FromGroup(s, a, i).value; Precedes(Match(0, r.0, r.1, r.2), Match(0, i2, j2, k2))
    decreases |s| - i
  {
    if OccursAt(s, " to ", i) && ToStart(s, i + 4).Some? {
      FromGroupStops(s, a, i);
      if i == i2 {
        ToStartLeast(s, i + 4, j2, k2);
      }
    } else {
      if i == i2 {
        ToStartLeast(s, i + 4, j2, k2);
        assert false;
      }
      FromGroupGrows(s, a, i, i2);
      FromGroupLeast(s, a, i + 1, i2, j2, k2);
    }
  }

  /** Once ` to ` follows and the rest matches, the lazy origin group stops. */
  lemma FromGroupStops(s: string, a: nat, i: nat)
    requires DotGroup(s, a, i) && OccursAt(s, " to ", i) && ToStart(s, i + 4).Some?
    ensures FromGroup(s, a, i) == Some((i, ToStart(s, i + 4).value.0, ToStart(s, i + 4).value.1))
  {
  }

  /** Short of a longer origin group that may still match, the lazy group takes one more character. */
  lemma FromGroupGrows(s: string, a: nat, i: nat, i2: nat)
    requires DotGroup(s, a, i2) && a < i < i2
    requires !(OccursAt(s, " to ", i) && ToStart(s, i + 4).Some?)
    ensures DotGroup(s, a, i + 1) && FromGroup(s, a, i) == FromGroup(s, a, i + 1)
  {
    assert !IsLineTerminator(s[i]);
  }

  lemma FromStartLeast(s: string, a: nat, i2: nat, j2: nat, k2: nat)
    requires FromTail(s, a, i2, j2, k2)
    ensures FromStart(s, a).Some?
    ensures var r := FromStart(s, a).value; Precedes(Match(0, r.0, r.1, r.2), Match(0, i2, j2, k2))
  {
    FromGroupLeast(s, a, a + 1, i2, j2, k2);
  }

  /** `match` without the global flag finds a match whenever one starts at `p` or later,
      and the one it finds comes first in the engine's order. */
  lemma {:induction false} SearchLeast(s: string, p: nat, m: Match)
    requires p <= m.p && MatchesAt(s, m)
    ensures Search(s, p).Some? && Precedes(Search(s, p).value, m)
    decreases |s| - p
  {
    if p == m.p {
      FromStartLeast(s, p + 7, m.i, m.j, m.k);
    } else if !(OccursAt(s, "Metro: ", p) && FromStart(s, p + 7).Some?) {
      SearchLeast(s, p + 1, m);
    }
  }

  /** `parseMetroDetails` finds details exactly when the note holds a match, and they are
      the captures of the first one. */
  lemma ParseFirstMatch(note: string)
    ensures Parse(note).None? <==> forall m :: !MatchesAt(note, m)
    ensures Parse(note).Some? ==>
              exists m :: MatchesAt(note, m) && (forall n | MatchesAt(note, n) :: Precedes(m, n))
                          && Parse(note).value == Captures(note, m)
  {
    forall n | MatchesAt(note, n)
      ensures Search(note, 0).Some? && Precedes(Search(note, 0).value, n)
    {
      SearchLeast(note, 0, n);
    }
    if Search(note, 0).Some? {
      var m := Search(note, 0).value;
      assert MatchesAt(note, m);
    }
  }

  lemma MatchSpellsMemo(s: string, m: Match)
    requires MatchesAt(s, m)
    ensures OccursAt(s, Memo(s[m.p + 7..m.i], s[m.i + 4..m.j], s[m.j + 2..m.k]), m.p)
  {
    var p, i, j, k := m.p, m.i, m.j, m.k;
    assert s[p..i] == "Metro: " + s[p + 7..i];
    assert s[p..i + 4] == s[p..i] + " to ";
    assert s[p..j] == s[p..i + 4] + s[i + 4..j];
    assert s[p..j + 2] == s[p..j] + " (";
    assert s[p..k] == s[p..j + 2] + s[j + 2..k];
    assert s[p..k + 1] == s[p..k] + ")";
  }

  lemma {:induction false} CloseAfterFinds(s: string, c: nat, k: nat, e: nat)
    requires DotGroup(s, c, k) && k <= e < |s| && s[e] == ')'
    requires forall x | k <= x < e :: s[x] != ')' && !IsLineTerminator(s[x])
    ensures CloseAfter(s, c, k) == Some(e)
    decreases e - k
  {
    if k < e {
      CloseAfterFinds(s, c, k + 1, e);
    }
  }

  lemma {:induction false} ToGroupFinds(s: string, b: nat, j: nat, e: nat, k: nat)
    requires DotGroup(s, b, j) && j <= e && OccursAt(s, " (", e) && LineGroup(s, e + 2) == Some(k)
    requires forall x | j <= x < e :: !OccursAt(s, " (", x) && !IsLineTerminator(s[x])
    ensures ToGroup(s, b, j) == Some((e, k))
    decreases e - j
  {
    if j < e {
      ToGroupFinds(s, b, j + 1, e, k);
    }
  }

  lemma {:induction false} FromGroupFinds(s: string, a: nat, i: nat, e: nat, j: nat, k: nat)
    requires DotGroup(s, a, i) && i <= e && OccursAt(s, " to ", e) && ToStart(s, e + 4) == Some((j, k))
    requires forall x | i <= x < e :: !OccursAt(s, " to ", x) && !IsLineTerminator(s[x])
    ensures FromGroup(s, a, i) == Some((e, j, k))
    decreases e - i
  {
    if i < e {
      FromGroupFinds(s, a, i + 1, e, j, k);
    }
  }

  /** No ` to ` begins inside the origin after its first character, not even one that runs
      into the separator written after it. */
  predicate SafeFrom(f: string) {
    forall x | 1 <= x < |f| :: !OccursAt(f + " to ", " to ", x)
  }

  /** No ` (` begins inside the destination after its first character. */
  predicate SafeTo(t: string) {
    forall x | 1 <= x < |t| :: !OccursAt(t + " (", " (", x)
  }

  /** Where the lazy line group stops inside a line name `l`: at the first `)` after its
      first character, or at its end. */
  function FirstClose(l: string, x: nat): (e: nat)
    requires 1 <= x <= |l|
    ensures x <= e <= |l| && (e < |l| ==> l[e] == ')')
    ensures forall y | x <= y < e :: l[y] != ')'
    decreases |l| - x
  {
    if x == |l| || l[x] == ')' then x else FirstClose(l, x + 1)
  }

  lemma OccursInside(s: string, sub: string, off: nat, p: string, x: nat)
    requires off + |sub| <= |s| && s[off..off + |sub|] == sub && x + |p| <= |sub|
    ensures OccursAt(s, p, off + x) <==> OccursAt(sub, p, x)
  {
    var w, v := s[off + x..off + x + |p|], sub[x..x + |p|];
    forall y | 0 <= y < |p|
      ensures w[y] == v[y]
    {
      assert v[y] == s[off..off + |sub|][x + y];
    }
    assert w == v;
  }

  lemma LineStage(s: string, c: nat, l: string)
    requires l != "" && NoLineTerminator(l)
    requires c + |l| < |s| && s[c..c + |l|] == l && s[c + |l|] == ')'
    ensures LineGroup(s, c) == Some(c + FirstClose(l, 1))
  {
    var k := c + FirstClose(l, 1);
    assert s[k] == ')' by {
      if k < c + |l| {
        assert s[k] == l[k - c];
      }
    }
    forall x | c <= x < k
      ensures (x > c ==> s[x] != ')') && !IsLineTerminator(s[x])
    {
      assert s[x] == l[x - c];
    }
    CloseAfterFinds(s, c, c + 1, k);
  }

  lemma ToStage(s: string, b: nat, t: string, k: nat)
    requires t != "" && NoLineTerminator(t) && SafeTo(t)
    requires b + |t| + 2 <= |s| && s[b..b + |t| + 2] == t + " ("
    requires LineGroup(s, b + |t| + 2) == Some(k)
    ensures ToStart(s, b) == Some((b + |t|, k))
  {
    var T := t + " (";
    OccursInside(s, T, b, " (", |t|);
    forall x | b < x < b + |t|
      ensures !OccursAt(s, " (", x) && !IsLineTerminator(s[x])
    {
      InsideSafeTo(s, b, t, x);
    }
    assert s[b] == T[0];
    ToGroupFinds(s, b, b + 1, b + |t|, k);
  }

  /** Inside a safe destination written before ` (`, no ` (` starts and no line ends. */
  lemma InsideSafeTo(s: string, b: nat, t: string, x: nat)
    requires NoLineTerminator(t) && SafeTo(t)
    requires b + |t| + 2 <= |s| && s[b..b + |t| + 2] == t + " ("
    requires b < x < b + |t|
    ensures !OccursAt(s, " (", x) && !IsLineTerminator(s[x])
  {
    var T := t + " (";
    OccursInside(s, T, b, " (", x - b);
    assert s[x] == T[x - b];
  }

  lemma FromStage(s: string, a: nat, f: string, j: nat, k: nat)
    requires f != "" && NoLineTerminator(f) && SafeFrom(f)
    requires a + |f| + 4 <= |s| && s[a..a + |f| + 4] == f + " to "
    requires ToStart(s, a + |f| + 4) == Some((j, k))
    ensures FromStart(s, a) == Some((a + |f|, j, k))
  {
    var F := f + " to ";
    OccursInside(s, F, a, " to ", |f|);
    forall x | a < x < a + |f|
      ensures !OccursAt(s, " to ", x) && !IsLineTerminator(s[x])
    {
      InsideSafeFrom(s, a, f, x);
    }
    assert s[a] == F[0];
    FromGroupFinds(s, a, a + 1, a + |f|, j, k);
  }

  /** Inside a safe origin written before ` to `, no ` to ` starts and no line ends. */
  lemma InsideSafeFrom(s: string, a: nat, f: string, x: nat)
    requires NoLineTerminator(f) && SafeFrom(f)
    requires a + |f| + 4 <= |s| && s[a..a + |f| + 4] == f + " to "
    requires a < x < a + |f|
    ensures !OccursAt(s, " to ", x) && !IsLineTerminator(s[x])
  {
    var F := f + " to ";
    OccursInside(s, F, a, " to ", x - a);
    assert s[x] == F[x - a];
  }

  lemma MemoLayout(f: string, t: string, l: string, rest: string)
    ensures Layout(Memo(f, t, l) + rest, f, t, l)
  {
    var s := Memo(f, t, l) + rest;
    assert s == "Metro: " + (f + " to ") + (t + " (") + l + ")" + rest;
  }

  lemma ParseFrom(s: string, i: nat, j: nat, k: nat)
    requires OccursAt(s, "Metro: ", 0) && FromStart(s, 7) == Some((i, j, k))
    ensures Parse(s) == Some(MetroDetails(s[7..i], s[i + 4..j], s[j + 2..k]))
  {
    assert Search(s, 0) == Some(Match(0, i, j, k));
  }

  /** The stored layout of a booking note, with the character positions that delimit its parts. */
  predicate Layout(s: string, f: string, t: string, l: string) {
    var b := 11 + |f|;
    var c := b + |t| + 2;
    c + |l| < |s| && s[..7] == "Metro: " && s[7..b] == f + " to " && s[b..c] == t + " ("
    && s[c..c + |l|] == l && s[c + |l|] == ')'
  }

  /** The parts a booking note is written from: non-empty, on one line, and origin and destination safe. */
  predicate Readable(f: string, t: string, l: string) {
    f != "" && t != "" && l != ""
    && NoLineTerminator(f) && NoLineTerminator(t) && NoLineTerminator(l)
    && SafeFrom(f) && SafeTo(t)
  }

  lemma Stages(s: string, f: string, t: string, l: string)
    requires Readable(f, t, l) && Layout(s, f, t, l)
    ensures FromStart(s, 7) == Some((7 + |f|, 11 + |f| + |t|, 13 + |f| + |t| + FirstClose(l, 1)))
  {
    var b := 11 + |f|;
    var j := b + |t|;
    var c := j + 2;
    var k := c + FirstClose(l, 1);
    LineStage(s, c, l);
    ToStage(s, b, t, k);
    FromStage(s, 7, f, j, k);
  }

  /** Where the parts of a laid-out note sit, the line cut at its first later `)`. */
  lemma LayoutParts(s: string, f: string, t: string, l: string)
    requires l != "" && Layout(s, f, t, l)
    ensures var j := 11 + |f| + |t|;
            s[7..7 + |f|] == f && s[11 + |f|..j] == t && s[j + 2..j + 2 + FirstClose(l, 1)] == l[..FirstClose(l, 1)]
  {
    var i, b := 7 + |f|, 11 + |f|;
    var j := b + |t|;
    var c := j + 2;
    var k := c + FirstClose(l, 1);
    assert s[7..i] == f by { assert s[7..i] == s[7..b][..|f|]; }
    assert s[b..j] == t by { assert s[b..j] == s[b..c][..|t|]; }
    assert s[c..k] == l[..FirstClose(l, 1)] by { assert s[c..k] == s[c..c + |l|][..k - c]; }
  }

  lemma ParseLayout(s: string, f: string, t: string, l: string)
    requires Readable(f, t, l) && Layout(s, f, t, l)
    ensures Parse(s) == Some(MetroDetails(f, t, l[..FirstClose(l, 1)]))
  {
    Stages(s, f, t, l);
    assert OccursAt(s, "Metro: ", 0);
    ParseFrom(s, 7 + |f|, 11 + |f| + |t|, 13 + |f| + |t| + FirstClose(l, 1));
    LayoutParts(s, f, t, l);
  }

  /** Reading back the note of a booking, followed by anything: the origin and destination
      come back whole when they are safe, and the line name is cut at its first `)`. */
  lemma ParseMemo(f: string, t: string, l: string, rest: string)
    requires Readable(f, t, l)
    ensures Parse(Memo(f, t, l) + rest) == Some(MetroDetails(f, t, l[..FirstClose(l, 1)]))
  {
    MemoLayout(f, t, l, rest);
    ParseLayout(Memo(f, t, l) + rest, f, t, l);
  }

  /** No `)` in the line name after its first character. */
  predicate SafeLine(l: string) {
    forall x | 1 <= x < |l| :: l[x] != ')'
  }

  /** The round trip: a note written from safe parts reads back as exactly those parts. */
  lemma ParseMemoRoundTrip(f: string, t: string, l: string)
    requires Readable(f, t, l) && SafeLine(l)
    ensures Parse(Memo(f, t, l)) == Some(MetroDetails(f, t, l))
  {
    ParseMemo(f, t, l, "");
    assert Memo(f, t, l) + "" == Memo(f, t, l);
    assert l[..FirstClose(l, 1)] == l;
  }

  /** A line name that ends in a bracket, such as "Blue Line (North-South)", reads back
      without that bracket. */
  lemma ParseCutsBracketedLine(f: string, t: string, l: string)
    requires Readable(f, t, l) && |l| >= 2 && l[|l| - 1] == ')'
    requires forall x | 1 <= x < |l| - 1 :: l[x] != ')'
    ensures Parse(Memo(f, t, l)) == Some(MetroDetails(f, t, l[..|l| - 1]))
  {
    ParseMemo(f, t, l, "");
    assert Memo(f, t, l) + "" == Memo(f, t, l);
  }

  /** A station name with no space followed by `t` and no trailing space is a safe origin. */
  lemma SafeFromByWords(f: string)
    requires f != "" && f[|f| - 1] != ' '
    requires forall x | 0 <= x < |f| - 1 :: f[x] == ' ' ==> f[x + 1] != 't'
    ensures SafeFrom(f)
  {
    forall x | 1 <= x < |f|
      ensures !OccursAt(f + " to ", " to ", x)
    {
      var F := f + " to ";
      assert F[x] == f[x];
      assert x + 1 < |f| ==> F[x + 1] == f[x + 1];
      assert F[x..x + 4][0] == F[x] && F[x..x + 4][1] == F[x + 1];
    }
  }

  /** A station name without `(` and without a trailing space is a safe destination. */
  lemma SafeToByBrackets(t: string)
    requires t != "" && t[|t| - 1] != ' ' && '(' !in t
    ensures SafeTo(t)
  {
    forall x | 1 <= x < |t|
      ensures !OccursAt(t + " (", " (", x)
    {
      var T := t + " (";
      assert T[x] == t[x];
      assert x + 1 < |t| ==> T[x + 1] == t[x + 1];
      assert T[x..x + 2][0] == T[x] && T[x..x + 2][1] == T[x + 1];
    }
  }

  /** A station name that is safe on either side of ` to `: non-empty, on one line, no
      trailing space, and no word after its first that starts with `t`. */
  predicate PlainName(f: string) {
    f != "" && f[|f| - 1] != ' ' && NoLineTerminator(f)
    && forall x | 0 <= x < |f| - 1 :: f[x] == ' ' ==> f[x + 1] != 't'
  }

  lemma PlainNameSafe(f: string)
    requires PlainName(f)
    ensures SafeFrom(f) && ('(' !in f ==> SafeTo(f))
  {
    SafeFromByWords(f);
    if '(' !in f {
      SafeToByBrackets(f);
    }
  }

  lemma BlueStationsPlainA()
    ensures forall i | 0 <= i < 4 :: PlainName(BlueStations()[i])
  {
  }

  lemma BlueStationsPlainB()
    ensures forall i | 4 <= i < 8 :: PlainName(BlueStations()[i])
  {
  }

  lemma BlueStationsPlainC()
    ensures forall i | 8 <= i < 12 :: PlainName(BlueStations()[i])
  {
  }

  lemma BlueStationsPlainD()
    ensures forall i | 12 <= i < 16 :: PlainName(BlueStations()[i])
  {
  }

  lemma BlueStationsPlainE()
    ensures forall i | 16 <= i < 19 :: PlainName(BlueStations()[i])
  {
  }

  lemma BlueStationsPlainF()
    ensures forall i | 19 <= i < 22 :: PlainName(BlueStations()[i])
  {
  }

  lemma GreenStationsPlainA()
    ensures forall i | 0 <= i < 6 :: PlainName(GreenStations()[i])
  {
  }

  lemma GreenStationsPlainB()
    ensures forall i | 6 <= i < 12 :: PlainName(GreenStations()[i])
  {
  }

  lemma PurpleStationsPlain()
    ensures forall i | 0 <= i < 6 :: PlainName(PurpleStations()[i])
  {
  }

  lemma OrangeStationsPlain()
    ensures forall i | 0 <= i < 6 :: PlainName(OrangeStations()[i])
  {
  }

  lemma BlueStationsPlain()
    ensures forall f | f in BlueStations() :: PlainName(f)
  {
    BlueStationsPlainA(); BlueStationsPlainB(); BlueStationsPlainC();
    BlueStationsPlainD(); BlueStationsPlainE(); BlueStationsPlainF();
  }

  lemma BlueStationsUnbracketed()
    ensures forall f | f in BlueStations() && f != BracketedStation :: '(' !in f
  {
    BlueUnbracketedA();
    BlueUnbracketedB();
  }

  lemma StationsPlain(id: LineId)
    ensures forall f | f in Stations(id) :: PlainName(f)
  {
    match id
    case Blue =>
      BlueStationsPlainA(); BlueStationsPlainB(); BlueStationsPlainC();
      BlueStationsPlainD(); BlueStationsPlainE(); BlueStationsPlainF();
    case Green => GreenStationsPlainA(); GreenStationsPlainB();
    case Purple => PurpleStationsPlain();
    case Orange => OrangeStationsPlain();
  }

  /** The one station name with a bracket in it. */
  const BracketedStation := "Kavi Subhash (New Garia)"

  lemma BlueUnbracketedA()
    ensures forall i | 0 <= i < 11 :: '(' !in BlueStations()[i]
  {
  }

  lemma BlueUnbracketedB()
    ensures forall i | 11 <= i < 21 :: '(' !in BlueStations()[i]
    ensures BlueStations()[21] == BracketedStation
  {
  }

  lemma GreenUnbracketed()
    ensures forall i | 0 <= i < 12 :: '(' !in GreenStations()[i]
  {
  }

  lemma PurpleOrangeUnbracketed()
    ensures forall i | 0 <= i < 6 :: '(' !in PurpleStations()[i] && '(' !in OrangeStations()[i]
  {
  }

  lemma StationsUnbracketed(id: LineId)
    ensures forall f | f in Stations(id) && f != BracketedStation :: '(' !in f
    ensures id != Blue ==> forall f | f in Stations(id) :: '(' !in f
  {
    BlueUnbracketedA();
    BlueUnbracketedB();
    GreenUnbracketed();
    PurpleOrangeUnbracketed();
  }

  /** A ticket between plain stations under a line name without a bracket reads back whole. */
  lemma PlainTicketRoundTrip(f: string, t: string, l: string)
    requires PlainName(f) && PlainName(t) && '(' !in t
    requires l != "" && NoLineTerminator(l) && SafeLine(l)
    ensures Parse(Memo(f, t, l)) == Some(MetroDetails(f, t, l))
  {
    PlainNameSafe(f);
    PlainNameSafe(t);
    ParseMemoRoundTrip(f, t, l);
  }

  /** A ticket between plain stations under a line name ending in its only later `)`
      reads back without that bracket. */
  lemma BracketedLineCut(f: string, t: string, l: string)
    requires PlainName(f) && PlainName(t) && '(' !in t
    requires l != "" && NoLineTerminator(l) && |l| >= 2 && l[|l| - 1] == ')'
    requires forall x | 1 <= x < |l| - 1 :: l[x] != ')'
    ensures Parse(Memo(f, t, l)) == Some(MetroDetails(f, t, l[..|l| - 1]))
  {
    PlainNameSafe(f);
    PlainNameSafe(t);
    ParseCutsBracketedLine(f, t, l);
  }

  /** Purple line tickets read back exactly as they were booked. */
  lemma PurpleTicketsRoundTrip(f: string, t: string)
    requires f in Stations(Purple) && t in Stations(Purple)
    ensures Parse(Memo(f, t, LineName(Purple))) == Some(MetroDetails(f, t, LineName(Purple)))
  {
    PurpleStationsPlain();
    PurpleOrangeUnbracketed();
    PlainTicketRoundTrip(f, t, LineName(Purple));
  }

  /** Orange line tickets read back exactly as they were booked. */
  lemma OrangeTicketsRoundTrip(f: string, t: string)
    requires f in Stations(Orange) && t in Stations(Orange)
    ensures Parse(Memo(f, t, LineName(Orange))) == Some(MetroDetails(f, t, LineName(Orange)))
  {
    OrangeStationsPlain();
    PurpleOrangeUnbracketed();
    PlainTicketRoundTrip(f, t, LineName(Orange));
  }

  lemma GreenNameFacts()
    ensures var l := LineName(Green);
            l != "" && NoLineTerminator(l) && |l| >= 2 && l[|l| - 1] == ')'
            && (forall x | 1 <= x < |l| - 1 :: l[x] != ')') && l[..|l| - 1] == "Green Line (East-West"
  {
  }

  lemma BlueNameFacts()
    ensures var l := LineName(Blue);
            l != "" && NoLineTerminator(l) && |l| >= 2 && l[|l| - 1] == ')'
            && (forall x | 1 <= x < |l| - 1 :: l[x] != ')') && l[..|l| - 1] == "Blue Line (North-South"
  {
  }

  lemma GreenLineCut(f: string, t: string)
    requires PlainName(f) && PlainName(t) && '(' !in t
    ensures Parse(Memo(f, t, LineName(Green))) == Some(MetroDetails(f, t, "Green Line (East-West"))
  {
    GreenNameFacts();
    BracketedLineCut(f, t, LineName(Green));
  }

  lemma BlueLineCut(f: string, t: string)
    requires PlainName(f) && PlainName(t) && '(' !in t
    ensures Parse(Memo(f, t, LineName(Blue))) == Some(MetroDetails(f, t, "Blue Line (North-South"))
  {
    BlueNameFacts();
    BracketedLineCut(f, t, LineName(Blue));
  }

  lemma GreenStationFacts(f: string, t: string)
    requires f in Stations(Green) && t in Stations(Green)
    ensures PlainName(f) && PlainName(t) && '(' !in t
  {
    GreenStationsPlainA();
    GreenStationsPlainB();
    GreenUnbracketed();
  }

  lemma BlueStationFacts(f: string, t: string)
    requires f in Stations(Blue) && t in Stations(Blue) && t != BracketedStation
    ensures PlainName(f) && PlainName(t) && '(' !in t
  {
    BlueStationsPlain();
    BlueStationsUnbracketed();
  }

  /** Green line tickets read back as "Green Line (East-West", without the final bracket. */
  lemma GreenTicketsLoseBracket(f: string, t: string)
    requires f in Stations(Green) && t in Stations(Green)
    ensures Parse(Memo(f, t, LineName(Green))) == Some(MetroDetails(f, t, "Green Line (East-West"))
  {
    GreenStationFacts(f, t);
    GreenLineCut(f, t);
  }

  /** Blue line tickets to any station but "Kavi Subhash (New Garia)" read back as
      "Blue Line (North-South", without the final bracket. */
  lemma BlueTicketsLoseBracket(f: string, t: string)
    requires f in Stations(Blue) && t in Stations(Blue) && t != BracketedStation
    ensures Parse(Memo(f, t, LineName(Blue))) == Some(MetroDetails(f, t, "Blue Line (North-South"))
  {
    BlueStationFacts(f, t);
    BlueLineCut(f, t);
  }

  lemma BracketedStationSplits(f: string, l: string)
    ensures Memo(f, BracketedStation, l) == Memo(f, "Kavi Subhash", "New Garia") + (" (" + l + ")")
  {
  }

  lemma SplitPartsFacts()
    ensures PlainName("Kavi Subhash") && '(' !in "Kavi Subhash"
    ensures NoLineTerminator("New Garia") && ')' !in "New Garia"
  {
  }

  lemma DestinationCut(f: string, l: string)
    requires PlainName(f)
    ensures Parse(Memo(f, BracketedStation, l)) == Some(MetroDetails(f, "Kavi Subhash", "New Garia"))
  {
    var t, l' := "Kavi Subhash", "New Garia";
    SplitPartsFacts();
    PlainNameSafe(f);
    PlainNameSafe(t);
    BracketedStationSplits(f, l);
    ParseMemo(f, t, l', " (" + l + ")");
    assert l'[..FirstClose(l', 1)] == l';
  }

  /** A Blue line ticket to "Kavi Subhash (New Garia)" reads back with the destination
      "Kavi Subhash" and the line "New Garia". */
  lemma BracketedDestinationTicket(f: string)
    requires f in Stations(Blue)
    ensures Parse(Memo(f, BracketedStation, LineName(Blue)))
            == Some(MetroDetails(f, "Kavi Subhash", "New Garia"))
  {
    BlueStationsPlain();
    DestinationCut(f, LineName(Blue));
  }

  /** ` (name)`: how a line name closes a booking note. */
  function Label(name: string): string {
    " (" + name + ")"
  }

  predicate EndsWith(s: string, x: string) {
    |x| <= |s| && s[|s| - |x|..] == x
  }

  /** No line's label ends another's, so a note ends in the label of at most one line. */
  predicate Unambiguous(names: seq<string>) {
    forall a, b | a in names && b in names && a != b :: !EndsWith(Label(a), Label(b))
  }

  /** The first of `names` whose label ends the note. */
  function NamedLine(note: string, names: seq<string>): (r: Option<string>)
    ensures r.Some? ==> r.value in names && EndsWith(note, Label(r.value))
    ensures r.None? ==> forall n | n in names :: !EndsWith(note, Label(n))
  {
    if names == [] then None
    else if EndsWith(note, Label(names[0])) then Some(names[0])
    else NamedLine(note, names[1..])
  }

  /** The first ` to ` in `m` at or after `x`. */
  function Separator(m: string, x: nat): (r: Option<nat>)
    ensures r.Some? ==> x <= r.value && OccursAt(m, " to ", r.value)
    ensures forall y | x <= y && (r.None? || y < r.value) :: !OccursAt(m, " to ", y)
    decreases |m| - x
  {
    if x + 4 > |m| then None
    else if OccursAt(m, " to ", x) then Some(x)
    else Separator(m, x + 1)
  }

  /** Reading a booking note back against the known line names: the line is the one whose
      bracketed name ends the note, and the origin ends at the first ` to `. */
  function ParseBooked(names: seq<string>, note: string): (r: Option<MetroDetails>)
    ensures r.Some? ==> note == Memo(r.value.from, r.value.to, r.value.line)
    ensures r.Some? ==> r.value.line in names && r.value.from != "" && r.value.to != ""
  {
    if !StartsWith(note, "Metro: ") then None
    else match NamedLine(note, names)
      case None => None
      case Some(l) =>
        if |note| < 7 + |Label(l)| then None
        else
          var middle := note[7..|note| - |Label(l)|];
          match Separator(middle, 1)
          case None => None
          case Some(x) =>
            if x + 4 == |middle| then None
            else
              BookedLayout(note, middle, l, x);
              Some(MetroDetails(middle[..x], middle[x + 4..], l))
  }

  lemma BookedLayout(note: string, middle: string, l: string, x: nat)
    requires StartsWith(note, "Metro: ") && EndsWith(note, Label(l)) && 7 + |Label(l)| <= |note|
    requires middle == note[7..|note| - |Label(l)|]
    requires 1 <= x && OccursAt(middle, " to ", x) && x + 4 < |middle|
    ensures note == Memo(middle[..x], middle[x + 4..], l)
  {
    var f, t := middle[..x], middle[x + 4..];
    assert middle == f + " to " + t;
    assert note == note[..7] + middle + note[|note| - |Label(l)|..];
    assert note == "Metro: " + middle + Label(l);
    MemoAssociates(f, t, l);
  }

  lemma MemoAssociates(f: string, t: string, l: string)
    ensures Memo(f, t, l) == "Metro: " + (f + " to " + t) + Label(l)
  {
  }

  lemma SuffixOfSuffix(s: string, x: string, y: string)
    requires EndsWith(s, x) && EndsWith(s, y) && |x| <= |y|
    ensures EndsWith(y, x)
  {
    assert y[|y| - |x|..] == s[|s| - |x|..];
  }

  lemma NamedLineOfLabel(names: seq<string>, note: string, l: string)
    requires Unambiguous(names) && l in names && EndsWith(note, Label(l))
    ensures NamedLine(note, names) == Some(l)
  {
    var n := NamedLine(note, names).value;
    if |Label(n)| <= |Label(l)| {
      SuffixOfSuffix(note, Label(n), Label(l));
    } else {
      SuffixOfSuffix(note, Label(l), Label(n));
    }
  }

  lemma SeparatorAfterOrigin(f: string, t: string)
    requires f != "" && SafeFrom(f)
    ensures Separator(f + " to " + t, 1) == Some(|f|)
  {
    var m := f + " to " + t;
    OccursInside(m, f + " to ", 0, " to ", |f|);
    forall y | 1 <= y < |f|
      ensures !OccursAt(m, " to ", y)
    {
      OccursInside(m, f + " to ", 0, " to ", y);
    }
  }

  /** A booking note is the prefix, the `from to to` middle, and the line's label. */
  lemma MemoParts(f: string, t: string, l: string)
    ensures var note := Memo(f, t, l);
            StartsWith(note, "Metro: ") && EndsWith(note, Label(l)) && 7 + |Label(l)| <= |note|
            && note[7..|note| - |Label(l)|] == f + " to " + t
  {
    MemoAssociates(f, t, l);
  }

  lemma MiddleParts(f: string, t: string)
    ensures (f + " to " + t)[..|f|] == f && (f + " to " + t)[|f| + 4..] == t
  {
  }

  /** A note made of the three parts, whose label names a known line and whose origin ends
      at the first ` to `, reads back as those parts. */
  lemma BookedOfParts(names: seq<string>, note: string, f: string, t: string, l: string)
    requires StartsWith(note, "Metro: ") && 7 + |Label(l)| <= |note|
    requires note[7..|note| - |Label(l)|] == f + " to " + t && t != ""
    requires NamedLine(note, names) == Some(l)
    requires Separator(f + " to " + t, 1) == Some(|f|)
    ensures ParseBooked(names, note) == Some(MetroDetails(f, t, l))
  {
    var middle := note[7..|note| - |Label(l)|];
    assert Separator(middle, 1) == Some(|f|);
    MiddleParts(f, t);
    assert middle[..|f|] == f && middle[|f| + 4..] == t && |f| + 4 != |middle|;
  }

  /** The corrected reading inverts the note for every known line name and every origin
      without an earlier ` to `. */
  lemma BookedRoundTrip(names: seq<string>, f: string, t: string, l: string)
    requires Unambiguous(names) && l in names
    requires f != "" && t != "" && SafeFrom(f)
    ensures ParseBooked(names, Memo(f, t, l)) == Some(MetroDetails(f, t, l))
  {
    MemoParts(f, t, l);
    NamedLineOfLabel(names, Memo(f, t, l), l);
    SeparatorAfterOrigin(f, t);
    BookedOfParts(names, Memo(f, t, l), f, t, l);
  }

  /** The names of the four lines, in table order. */
  function LineNames(): seq<string> {
    [LineName(Blue), LineName(Green), LineName(Purple), LineName(Orange)]
  }

  lemma NotEndsWith(x: string, y: string, k: nat)
    requires k < |y| <= |x| && x[|x| - 1 - k] != y[|y| - 1 - k]
    ensures !EndsWith(x, y)
  {
    assert x[|x| - |y|..][|y| - 1 - k] == x[|x| - 1 - k];
  }

  lemma UnambiguousFour(n1: string, n2: string, n3: string, n4: string)
    requires !EndsWith(Label(n1), Label(n2)) && !EndsWith(Label(n1), Label(n3)) && !EndsWith(Label(n1), Label(n4))
    requires !EndsWith(Label(n2), Label(n1)) && !EndsWith(Label(n2), Label(n3)) && !EndsWith(Label(n2), Label(n4))
    requires !EndsWith(Label(n3), Label(n1)) && !EndsWith(Label(n3), Label(n2)) && !EndsWith(Label(n3), Label(n4))
    requires !EndsWith(Label(n4), Label(n1)) && !EndsWith(Label(n4), Label(n2)) && !EndsWith(Label(n4), Label(n3))
    ensures Unambiguous([n1, n2, n3, n4])
  {
  }

  lemma LabelCharacters()
    ensures var b, g := Label(LineName(Blue)), Label(LineName(Green));
            |b| == 26 && |g| == 25 && b[23] == 'h' && b[24] == ')' && g[22] == 't' && g[23] == ')'
    ensures var p, o := Label(LineName(Purple)), Label(LineName(Orange));
            |p| == 14 && |o| == 14 && p[12] == 'e' && o[12] == 'e' && p[6] == 'l' && o[6] == 'g'
  {
  }

  lemma LineNamesUnambiguous()
    ensures Unambiguous(LineNames())
  {
    var b, g, p, o := LineName(Blue), LineName(Green), LineName(Purple), LineName(Orange);
    LabelCharacters();
    NotEndsWith(Label(b), Label(g), 2);
    NotEndsWith(Label(b), Label(p), 1);
    NotEndsWith(Label(b), Label(o), 1);
    NotEndsWith(Label(g), Label(p), 1);
    NotEndsWith(Label(g), Label(o), 1);
    NotEndsWith(Label(p), Label(o), 7);
    NotEndsWith(Label(o), Label(p), 7);
    UnambiguousFour(b, g, p, o);
  }

  lemma StationIsPlain(id: LineId, f: string)
    requires f in Stations(id)
    ensures PlainName(f)
  {
    match id
    case Blue => BlueStationsPlain();
    case Green => GreenStationsPlainA(); GreenStationsPlainB();
    case Purple => PurpleStationsPlain();
    case Orange => OrangeStationsPlain();
  }

  /** With the corrected reading every ticket of every line reads back as booked. */
  lemma BookedTicketsRoundTrip(id: LineId, f: string, t: string)
    requires f in Stations(id) && t in Stations(id)
    ensures ParseBooked(LineNames(), Memo(f, t, LineName(id))) == Some(MetroDetails(f, t, LineName(id)))
  {
    StationIsPlain(id, f);
    StationIsPlain(id, t);
    PlainNameSafe(f);
    LineNamesUnambiguous();
    assert LineName(id) in LineNames();
    BookedRoundTrip(LineNames(), f, t, LineName(id));
  }

  /** What the ticket dialog shows; times in milliseconds. */
  datatype TicketView = TicketView(details: MetroDetails, fare: int, bookedAt: int, validUntil: int)

  /** `MetroTicketDialog`: nothing without a transaction or when its note does not parse;
      a missing note reads as the empty string. */
  function Render(tx: Option<Transaction>): Option<TicketView> {
    if tx.None? then None
    else
      var row := tx.value;
      match Parse(if row.note.Some? then row.note.value else "")
      case None => None
      case Some(d) => Some(TicketView(d, row.amount, row.createdAt, row.createdAt + TicketValidityMs))
  }

  /** A row without a note, or with one that does not mention a metro trip, shows no ticket. */
  lemma RenderNeedsMemo(row: Transaction)
    requires row.note.None? || forall p | 0 <= p <= |row.note.value| :: !OccursAt(row.note.value, "Metro: ", p)
    ensures Render(Some(row)) == None
  {
    var note := if row.note.Some? then row.note.value else "";
    NoPrefixNoMatch(note, 0);
  }

  lemma {:induction false} NoPrefixNoMatch(s: string, p: nat)
    requires forall q | p <= q <= |s| :: !OccursAt(s, "Metro: ", q)
    ensures Search(s, p).None?
    decreases |s| - p
  {
    if p < |s| {
      NoPrefixNoMatch(s, p + 1);
    }
  }

  lemma RenderOfNote(row: Transaction, d: MetroDetails)
    requires row.note.Some? && Parse(row.note.value) == Some(d)
    ensures Render(Some(row)) == Some(TicketView(d, row.amount, row.createdAt, row.createdAt + TicketValidityMs))
  {
  }

  /** A Purple or Orange line booking row shows the booked trip, its fare, and a validity
      of 45 minutes from the time the row was stored. */
  lemma RenderPlainBooking(id: LineId, row: Transaction, f: string, t: string)
    requires id == Purple || id == Orange
    requires f in Stations(id) && t in Stations(id) && row.note == Some(Memo(f, t, LineName(id)))
    ensures Render(Some(row)) == Some(TicketView(MetroDetails(f, t, LineName(id)), row.amount,
                                                 row.createdAt, row.createdAt + TicketValidityMs))
  {
    if id == Purple {
      PurpleTicketsRoundTrip(f, t);
    } else {
      OrangeTicketsRoundTrip(f, t);
    }
    RenderOfNote(row, MetroDetails(f, t, LineName(id)));
  }
}
