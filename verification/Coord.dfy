/** The order of child names: coordinates like "[3,12]" by their numbers, everything else by bytes. */
module Coord {
  import opened Bytes

  const ZERO: byte := 0x30
  const NINE: byte := 0x39
  const COMMA: byte := 0x2C
  const OPEN: byte := 0x5B
  const CLOSE: byte := 0x5D
  const MAX_COORDS := 8

  // ---- byte order ----

  /** strcmp, up to sign, on strings without NUL. */
  function StrCmp(a: Key, b: Key): (c: int) {
    if a == [] then (if b == [] then 0 else -1)
    else if b == [] then 1
    else if a[0] != b[0] then (if a[0] < b[0] then -1 else 1)
    else StrCmp(a[1..], b[1..])
  }

  lemma {:induction false} StrFlip(a: Key, b: Key)
    ensures StrCmp(b, a) == -StrCmp(a, b) && (StrCmp(a, b) == 0 <==> a == b)
  {
    if a != [] && b != [] && a[0] == b[0] {
      StrFlip(a[1..], b[1..]);
      assert a == [a[0]] + a[1..] && b == [b[0]] + b[1..];
    }
  }

  lemma {:induction false} StrTrans(a: Key, b: Key, c: Key)
    requires StrCmp(a, b) <= 0 && StrCmp(b, c) <= 0
    ensures StrCmp(a, c) <= 0 && (StrCmp(a, b) < 0 || StrCmp(b, c) < 0 ==> StrCmp(a, c) < 0)
  {
    if a != [] && b != [] && c != [] && a[0] == b[0] == c[0] {
      StrTrans(a[1..], b[1..], c[1..]);
    }
  }

  /** Between a string and an extension of it there are only extensions. */
  lemma {:induction false} StrBetween(a: Key, b: Key, c: Key)
    requires a <= c && StrCmp(a, b) <= 0 && StrCmp(b, c) <= 0
    ensures a <= b
  {
    if a != [] {
      assert c[0] == a[0];
      StrBetween(a[1..], b[1..], c[1..]);
      assert a == [a[0]] + a[1..] && b == [b[0]] + b[1..];
    }
  }

  /** a is a proper beginning of b, or smaller where they first differ. */
  ghost predicate Before(a: seq<int>, b: seq<int>) {
    a < b || exists i :: Differ(a, b, i) && a[i] < b[i]
  }

  ghost predicate Differ(a: seq<int>, b: seq<int>, i: int) {
    0 <= i < |a| && i < |b| && a[..i] == b[..i] && a[i] != b[i]
  }

  lemma BeforeNext(a: seq<int>, b: seq<int>)
    requires a != [] && b != [] && a[0] == b[0]
    ensures Before(a, b) <==> Before(a[1..], b[1..])
  {
    assert a == [a[0]] + a[1..] && b == [b[0]] + b[1..];
    forall i | Differ(a, b, i) ensures i > 0 && Differ(a[1..], b[1..], i - 1) {
      assert a[..i][1..] == a[1..][..i - 1] && b[..i][1..] == b[1..][..i - 1];
    }
    forall i | Differ(a[1..], b[1..], i) ensures Differ(a, b, i + 1) {
      assert a[..i + 1] == [a[0]] + a[1..][..i] && b[..i + 1] == [b[0]] + b[1..][..i];
    }
  }

  lemma BeforeFirst(a: seq<int>, b: seq<int>)
    requires a == [] || b == [] || a[0] != b[0]
    ensures Before(a, b) <==> b != [] && (a == [] || a[0] < b[0])
  {
    assert a == [] && b != [] ==> a < b;
    if a != [] && b != [] {
      assert Differ(a, b, 0);
      assert forall i :: 0 < i < |a| ==> a[..i][0] == a[0];
      assert forall i :: 0 < i < |b| ==> b[..i][0] == b[0];
    }
  }

  /** The comparison is the byte order. */
  lemma {:induction false} StrOrder(a: Key, b: Key)
    ensures StrCmp(a, b) < 0 <==> Before(a, b)
  {
    hide Before;
    if a != [] && b != [] && a[0] == b[0] {
      StrOrder(a[1..], b[1..]);
      BeforeNext(a, b);
    } else {
      BeforeFirst(a, b);
    }
  }

  // ---- coordinates ----

  predicate Bracketed(s: Key) {
    |s| >= 3 && s[0] == OPEN && s[|s| - 1] == CLOSE && forall i :: 1 <= i < |s| - 1 ==> s[i] != OPEN && s[i] != CLOSE
  }

  /** A coordinate is a pair of brackets with something between them, and no other bracket. */
  lemma BracketedSpelled(s: Key, inside: Key)
    ensures Bracketed([OPEN] + inside + [CLOSE]) <==> inside != [] && OPEN !in inside && CLOSE !in inside
    ensures Bracketed(s) ==> exists i :: s == [OPEN] + i + [CLOSE]
  {
    var w := [OPEN] + inside + [CLOSE];
    assert forall i :: 0 <= i < |inside| ==> w[i + 1] == inside[i];
    assert forall k :: 1 <= k < |w| - 1 ==> w[k] == inside[k - 1];
    if Bracketed(s) {
      assert s == [OPEN] + s[1..|s| - 1] + [CLOSE];
    }
  }

  method IsCoord(s: Key) returns (r: bool)
    ensures r == Bracketed(s)
  {
    if |s| == 0 || s[0] != OPEN {
      return false;
    }
    if |s| < 3 || s[|s| - 1] != CLOSE {
      return false;
    }
    for i := 1 to |s| - 1
      invariant forall j :: 1 <= j < i ==> s[j] != OPEN && s[j] != CLOSE
    {
      if s[i] == OPEN || s[i] == CLOSE {
        return false;
      }
    }
    return true;
  }

  predicate Digit(b: byte) {
    ZERO <= b <= NINE
  }

  predicate Digits(d: Key) {
    forall i :: 0 <= i < |d| ==> Digit(d[i])
  }

  /** The decimal value of cur followed by the digits d. */
  function Append(cur: nat, d: Key): nat
    requires Digits(d)
    decreases |d|
  {
    if d == [] then cur else Append(cur * 10 + (d[0] - ZERO), d[1..])
  }

  /** What the parser makes of the rest of a string, having read cur (if has) and with room for more numbers. */
  function Items(s: Key, cur: nat, has: bool, room: nat): Option<seq<nat>> {
    if s == [] then None
    else if Digit(s[0]) then Items(s[1..], cur * 10 + (s[0] - ZERO), true, room)
    else if s[0] == COMMA then
      if !has || room == 0 then None
      else Prepended([cur], Items(s[1..], 0, false, room - 1))
    else if s[0] == CLOSE && has && room > 0 && |s| == 1 then Some([cur])
    else None
  }

  function Coords(s: Key): Option<seq<nat>> {
    if s == [] || s[0] != OPEN then None else Items(s[1..], 0, false, MAX_COORDS)
  }

  /** s is the numbers of v in decimal, the first continuing after cur, separated by commas and closed by ']'. */
  ghost predicate Spells(s: Key, cur: nat, has: bool, v: seq<nat>)
    decreases |v|
  {
    v != [] && exists d :: SpellsFirst(s, cur, has, v, d)
  }

  ghost predicate SpellsFirst(s: Key, cur: nat, has: bool, v: seq<nat>, d: Key)
    requires v != []
    decreases |v|, 0
  {
    && Digits(d) && (has || d != []) && Append(cur, d) == v[0] && |d| < |s| && d <= s
    && if |v| == 1 then s == d + [CLOSE] else s[|d|] == COMMA && Spells(s[|d| + 1..], 0, false, v[1..])
  }

  /** The parser accepts exactly the spelled number lists that fit, with their values. */
  lemma {:induction false} ItemsSpelled(s: Key, cur: nat, has: bool, room: nat, v: seq<nat>)
    ensures Items(s, cur, has, room) == Some(v) <==> Spells(s, cur, has, v) && |v| <= room
    decreases |s|
  {
    if s == [] {
    } else if Digit(s[0]) {
      var next := cur * 10 + (s[0] - ZERO);
      ItemsSpelled(s[1..], next, true, room, v);
      FirstDigit(s, cur, has, v);
    } else if v != [] {
      NoDigit(s, cur, has, v);
      if s[0] == COMMA {
        if has && room > 0 {
          ItemsSpelled(s[1..], 0, false, room - 1, v[1..]);
          PrependedIs(cur, Items(s[1..], 0, false, room - 1), v);
          assert |v| == 1 ==> v[1..] == [];
        }
      } else {
        assert |s| == 1 ==> s == [s[0]];
        assert [cur] == v <==> |v| == 1 && v[0] == cur;
      }
    }
  }

  lemma FirstDigit(s: Key, cur: nat, has: bool, v: seq<nat>)
    requires s != [] && Digit(s[0])
    ensures Spells(s, cur, has, v) <==> Spells(s[1..], cur * 10 + (s[0] - ZERO), true, v)
  {
    var next := cur * 10 + (s[0] - ZERO);
    if v != [] {
      forall d | SpellsFirst(s, cur, has, v, d) ensures SpellsFirst(s[1..], next, true, v, d[1..]) {
        assert d[0] == s[0];
        assert s[1..][|d| - 1 + 1..] == s[|d| + 1..];
      }
      forall d | SpellsFirst(s[1..], next, true, v, d) ensures SpellsFirst(s, cur, has, v, [s[0]] + d) {
        var e := [s[0]] + d;
        assert e[1..] == d && s == [s[0]] + s[1..];
        assert s[|e| + 1..] == s[1..][|d| + 1..];
      }
    }
  }

  lemma SameHead(d: Key, s: Key)
    requires d != [] && d <= s
    ensures d[0] == s[0]
  {
  }

  lemma NoDigit(s: Key, cur: nat, has: bool, v: seq<nat>)
    requires s != [] && !Digit(s[0]) && v != []
    ensures Spells(s, cur, has, v) <==>
              && has && v[0] == cur
              && if |v| == 1 then s == [CLOSE] else s[0] == COMMA && Spells(s[1..], 0, false, v[1..])
  {
    forall d | SpellsFirst(s, cur, has, v, d) ensures d == [] {
      if d != [] {
        SameHead(d, s);
      }
    }
    if SpellsFirst(s, cur, has, v, []) {
      assert s[0..] == s;
    }
    assert [] + [CLOSE] == [CLOSE];
    assert SpellsFirst(s, cur, has, v, []) <==>
        (has && v[0] == cur && if |v| == 1 then s == [CLOSE] else s[0] == COMMA && Spells(s[1..], 0, false, v[1..]));
  }

  /** A string is a numeric coordinate iff it is "[" and one to eight decimal numbers, comma separated, and "]". */
  lemma CoordsSpelled(s: Key, v: seq<nat>)
    ensures Coords(s) == Some(v) <==> s != [] && s[0] == OPEN && Spells(s[1..], 0, false, v) && |v| <= MAX_COORDS
  {
    if s != [] {
      ItemsSpelled(s[1..], 0, false, MAX_COORDS, v);
    }
  }

  function Prepended(done: seq<nat>, rest: Option<seq<nat>>): Option<seq<nat>> {
    match rest
    case None => None
    case Some(v) => Some(done + v)
  }

  lemma PrependedIs(cur: nat, rest: Option<seq<nat>>, v: seq<nat>)
    requires v != []
    ensures Prepended([cur], rest) == Some(v) <==> v[0] == cur && rest == Some(v[1..])
  {
    if rest.Some? {
      assert ([cur] + rest.value)[1..] == rest.value;
      assert v == [v[0]] + v[1..];
    }
  }

  lemma PrependedNone(rest: Option<seq<nat>>)
    ensures Prepended([], rest) == rest
  {
    assert rest.Some? ==> [] + rest.value == rest.value;
  }

  lemma PrependedOne(done: seq<nat>, cur: nat, rest: Option<seq<nat>>)
    ensures Prepended(done + [cur], rest) == Prepended(done, Prepended([cur], rest))
  {
    assert rest.Some? ==> (done + [cur]) + rest.value == done + ([cur] + rest.value);
  }

  /** Read integer coordinates into the caller's array; -1 when the name is anything else. */
  method ParseCoord(s: Key, coords: array<int>) returns (r: int)
    requires coords.Length == MAX_COORDS
    modifies coords
    ensures Coords(s).None? ==> r == -1
    ensures Coords(s).Some? ==> r == |Coords(s).value| <= MAX_COORDS && coords[..r] == Coords(s).value
  {
    if |s| == 0 || s[0] != OPEN {
      return -1;
    }
    var n, cur: nat, has := 0, 0, false;
    ghost var done: seq<nat> := [];
    PrependedNone(Coords(s));
    for p := 1 to |s|
      invariant 0 <= n <= MAX_COORDS && coords[..n] == done
      invariant Coords(s) == Prepended(done, Items(s[p..], cur, has, MAX_COORDS - n))
    {
      assert s[p..][1..] == s[p + 1..];
      if Digit(s[p]) {
        cur := cur * 10 + (s[p] - ZERO);
        has := true;
      } else if s[p] == COMMA {
        if !has || n >= MAX_COORDS {
          return -1;
        }
        PrependedOne(done, cur, Items(s[p + 1..], 0, false, MAX_COORDS - n - 1));
        coords[n] := cur;
        n := n + 1;
        done := done + [cur];
        cur := 0;
        has := false;
      } else if s[p] == CLOSE {
        if !has || n >= MAX_COORDS {
          return -1;
        }
        coords[n] := cur;
        n := n + 1;
        return if p + 1 == |s| then n else -1;
      } else {
        return -1;
      }
    }
    return -1;
  }

  /** A number in decimal. */
  function Decimal(n: nat): (d: Key)
    ensures d != [] && Digits(d)
  {
    var last: byte := 0x30 + n % 10;
    if n < 10 then [last] else Decimal(n / 10) + [last]
  }

  /** Numbers in decimal, separated by commas and closed by ']'. */
  function Written(v: seq<nat>): Key
    requires v != []
  {
    Decimal(v[0]) + if |v| == 1 then [CLOSE] else [COMMA] + Written(v[1..])
  }

  lemma {:induction false} AppendLast(cur: nat, d: Key, x: byte)
    requires Digits(d) && Digit(x)
    ensures Digits(d + [x]) && Append(cur, d + [x]) == 10 * Append(cur, d) + (x - 0x30)
    decreases |d|
  {
    if d == [] {
      assert [] + [x] == [x] && [x][1..] == [];
    } else {
      AppendLast(cur * 10 + (d[0] - ZERO), d[1..], x);
      assert (d + [x])[1..] == d[1..] + [x];
    }
  }

  lemma {:induction false} DecimalReads(n: nat)
    ensures Append(0, Decimal(n)) == n
  {
    if n < 10 {
      assert Decimal(n)[1..] == [];
    } else {
      DecimalReads(n / 10);
      AppendLast(0, Decimal(n / 10), 0x30 + n % 10);
    }
  }

  lemma {:induction false} WrittenSpells(v: seq<nat>)
    requires v != []
    ensures Spells(Written(v), 0, false, v)
    decreases |v|
  {
    var d := Decimal(v[0]);
    var s := Written(v);
    DecimalReads(v[0]);
    assert s[..|d|] == d;
    if |v| > 1 {
      WrittenSpells(v[1..]);
      assert s[|d|] == COMMA && s[|d| + 1..] == Written(v[1..]);
    }
    assert SpellsFirst(s, 0, false, v, d);
  }

  /** Up to eight numbers written between brackets are read back, and more are not. */
  lemma WrittenReads(v: seq<nat>)
    requires v != []
    ensures Coords([0x5B] + Written(v)) == if |v| <= 8 then Some(v) else None
  {
    hide Spells, Items;
    var s := [0x5B] + Written(v);
    assert s[1..] == Written(v);
    WrittenSpells(v);
    CoordsSpelled(s, v);
    if Coords(s).Some? {
      CoordsSpelled(s, Coords(s).value);
      SpelledOnce(Written(v), 0, false, v, Coords(s).value);
    }
  }

  /** A string spells one list. */
  lemma SpelledOnce(s: Key, cur: nat, has: bool, v: seq<nat>, w: seq<nat>)
    requires Spells(s, cur, has, v) && Spells(s, cur, has, w)
    ensures v == w
  {
    hide Spells, Items;
    ItemsSpelled(s, cur, has, |v| + |w|, v);
    ItemsSpelled(s, cur, has, |v| + |w|, w);
  }

  /** Numbers decide from the left; then the shorter list comes first. */
  function VecCmp(a: seq<nat>, b: seq<nat>): (c: int)
    ensures -1 <= c <= 1
  {
    if a == [] then (if b == [] then 0 else -1)
    else if b == [] then 1
    else if a[0] != b[0] then (if a[0] < b[0] then -1 else 1)
    else VecCmp(a[1..], b[1..])
  }

  lemma {:induction false} VecFlip(a: seq<nat>, b: seq<nat>)
    ensures VecCmp(b, a) == -VecCmp(a, b)
  {
    if a != [] && b != [] && a[0] == b[0] {
      VecFlip(a[1..], b[1..]);
    }
  }

  lemma {:induction false} VecOrder(a: seq<nat>, b: seq<nat>)
    ensures VecCmp(a, b) < 0 <==> Before(a, b)
  {
    hide Before;
    if a != [] && b != [] && a[0] == b[0] {
      VecOrder(a[1..], b[1..]);
      BeforeNext(a, b);
    } else {
      BeforeFirst(a, b);
    }
  }

  lemma {:induction false} VecTrans(a: seq<nat>, b: seq<nat>, c: seq<nat>)
    requires VecCmp(a, b) <= 0 && VecCmp(b, c) <= 0
    ensures VecCmp(a, c) <= 0 && (VecCmp(a, b) < 0 || VecCmp(b, c) < 0 ==> VecCmp(a, c) < 0)
  {
    if a != [] && b != [] && c != [] && a[0] == b[0] == c[0] {
      VecTrans(a[1..], b[1..], c[1..]);
    }
  }

  function CoordOrder(a: Key, b: Key): int {
    if !Bracketed(a) && !Bracketed(b) then StrCmp(a, b)
    else if !Bracketed(a) then 1
    else if !Bracketed(b) then -1
    else if Coords(a).None? || Coords(b).None? then StrCmp(a, b)
    else VecCmp(Coords(a).value, Coords(b).value)
  }

  method CoordCmp(a: Key, b: Key) returns (r: int)
    ensures r == CoordOrder(a, b)
  {
    var ia := IsCoord(a);
    var ib := IsCoord(b);
    if !ia && !ib {
      return StrCmp(a, b);
    }
    if !ia {
      return 1;
    }
    if !ib {
      return -1;
    }
    var ca, cb := new int[MAX_COORDS], new int[MAX_COORDS];
    var na := ParseCoord(a, ca);
    var nb := ParseCoord(b, cb);
    if na < 0 || nb < 0 {
      return StrCmp(a, b);
    }
    ghost var va, vb := Coords(a).value, Coords(b).value;
    var i := 0;
    while i < na && i < nb
      invariant 0 <= i <= na && i <= nb && ca[..na] == va && cb[..nb] == vb
      invariant VecCmp(va, vb) == VecCmp(va[i..], vb[i..])
    {
      assert ca[i] == ca[..na][i] && cb[i] == cb[..nb][i];
      if ca[i] != cb[i] {
        return if ca[i] < cb[i] then -1 else 1;
      }
      i := i + 1;
    }
    if na != nb {
      return if na < nb then -1 else 1;
    }
    return 0;
  }

  // ---- child names ----

  function Stem(x: Key): Key {
    if x != [] && x[|x| - 1] == SLASH then x[..|x| - 1] else x
  }

  predicate SameChild(a: Key, b: Key) {
    Stem(a) == Stem(b)
  }

  function ChildOrder(x: Key, y: Key): int {
    var c := CoordOrder(Stem(x), Stem(y));
    if c != 0 then c else StrCmp(x, y)
  }

  method ChildCmp(x: Key, y: Key) returns (r: int)
    ensures r == ChildOrder(x, y)
  {
    var tx := if |x| > 0 && x[|x| - 1] == SLASH then x[..|x| - 1] else x;
    var ty := if |y| > 0 && y[|y| - 1] == SLASH then y[..|y| - 1] else y;
    var c := CoordCmp(tx, ty);
    return if c != 0 then c else StrCmp(x, y);
  }

  /** Swapping the names flips the order, and only equal names tie. */
  lemma ChildFlip(x: Key, y: Key)
    ensures ChildOrder(y, x) == -ChildOrder(x, y) && (ChildOrder(x, y) == 0 <==> x == y)
  {
    hide StrCmp, VecCmp, Coords, Stem;
    StrFlip(x, y);
    StrFlip(Stem(x), Stem(y));
    if Coords(Stem(x)).Some? && Coords(Stem(y)).Some? {
      VecFlip(Coords(Stem(x)).value, Coords(Stem(y)).value);
    }
  }

  predicate Numeric(x: Key) {
    Bracketed(Stem(x)) && Coords(Stem(x)).Some?
  }

  predicate Odd(x: Key) {
    Bracketed(Stem(x)) && Coords(Stem(x)).None?
  }

  /** p precedes q by number, yet a coordinate u that is not numeric stands after q and before p by bytes. */
  predicate Straddles(p: Key, u: Key, q: Key) {
    Numeric(p) && Odd(u) && Numeric(q) && ChildOrder(p, q) < 0 && StrCmp(q, u) < 0 && StrCmp(u, p) < 0
  }

  ghost predicate Transitive(names: set<Key>) {
    forall x, y, z :: x in names && y in names && z in names && ChildOrder(x, y) <= 0 && ChildOrder(y, z) <= 0 ==>
      ChildOrder(x, z) <= 0
  }

  /** The stem of a name is the name without its closing '/'. */
  lemma StemSpelled(n: Key, x: Key)
    ensures Stem(n + [SLASH]) == n
    ensures x == [] || x[|x| - 1] != SLASH ==> Stem(x) == x
  {
    assert (n + [SLASH])[..|n|] == n;
  }

  /** Which of two names comes first: a coordinate before any plain name; plain names by the bytes of their stems, and
      the name itself before its directory. */
  lemma PlainOrder(x: Key, y: Key)
    requires !Bracketed(Stem(x)) || !Bracketed(Stem(y))
    ensures Bracketed(Stem(x)) ==> ChildOrder(x, y) < 0
    ensures Bracketed(Stem(y)) ==> ChildOrder(x, y) > 0
    ensures !Bracketed(Stem(x)) && !Bracketed(Stem(y)) ==>
              (ChildOrder(x, y) < 0 <==> Before(Stem(x), Stem(y)) || y == x + [SLASH])
  {
    hide StrCmp, Before, Bracketed;
    StrOrder(Stem(x), Stem(y));
    StrFlip(Stem(x), Stem(y));
    if Stem(x) == Stem(y) {
      StrOrder(x, y);
      StemTail(x);
      StemTail(y);
      TailBefore(Stem(x));
      StrFlip(x, y);
      StrOrder(y, x);
    } else if y == x + [SLASH] {
      StemSpelled(x, x);
      TailStem(x);
      StrOrder(Stem(x), x);
    }
  }

  lemma TailBefore(a: Key)
    ensures Before(a, a + [SLASH]) && !Before(a + [SLASH], a) && !Before(a, a)
  {
    forall i ensures !Differ(a, a + [SLASH], i) && !Differ(a + [SLASH], a, i) && !Differ(a, a, i) {
    }
  }

  lemma TailStem(x: Key)
    ensures Stem(x) != x ==> Before(Stem(x), x)
  {
  }

  /** Two coordinates with numbers compare by them, a shorter list before its extensions; others by their bytes. */
  lemma NumbersOrder(x: Key, y: Key)
    requires Bracketed(Stem(x)) && Bracketed(Stem(y))
    ensures ChildOrder(x, y) < 0 <==>
              if Numeric(x) && Numeric(y) && Coords(Stem(x)) != Coords(Stem(y))
              then Before(Coords(Stem(x)).value, Coords(Stem(y)).value) else Before(x, y)
  {
    hide StrCmp, VecCmp, Coords, Stem, Bracketed, ChildOrder, Before;
    BracketedOrder(x, y);
    StrOrder(x, y);
    if Numeric(x) && Numeric(y) {
      VecOrder(Coords(Stem(x)).value, Coords(Stem(y)).value);
      VecTies(Coords(Stem(x)).value, Coords(Stem(y)).value);
    }
  }

  lemma {:induction false} VecTies(a: seq<nat>, b: seq<nat>)
    ensures VecCmp(a, b) == 0 <==> a == b
  {
    if a != [] && b != [] && a[0] == b[0] {
      VecTies(a[1..], b[1..]);
      assert a == [a[0]] + a[1..] && b == [b[0]] + b[1..];
    }
  }

  /** Where neither string extends the other, what follows does not matter. */
  lemma {:induction false} StrTails(a: Key, b: Key, s: Key, u: Key)
    requires !(a <= b) && !(b <= a)
    ensures StrCmp(a + s, b + u) == StrCmp(a, b)
  {
    assert a != [] && b != [];
    assert (a + s)[1..] == a[1..] + s && (b + u)[1..] == b[1..] + u;
    if a[0] == b[0] {
      assert a == [a[0]] + a[1..] && b == [b[0]] + b[1..];
      StrTails(a[1..], b[1..], s, u);
    }
  }

  /** The bracket that closes a coordinate is its only one. */
  lemma BracketedPrefix(a: Key, b: Key)
    requires Bracketed(a) && Bracketed(b) && a <= b
    ensures a == b
  {
    assert b[|a| - 1] == CLOSE;
  }

  lemma StemTail(x: Key)
    ensures x == Stem(x) || x == Stem(x) + [SLASH]
  {
  }

  /** Different coordinates compare like their stems. */
  lemma BracketedTails(x: Key, y: Key)
    requires Bracketed(Stem(x)) && Bracketed(Stem(y)) && Stem(x) != Stem(y)
    ensures StrCmp(x, y) == StrCmp(Stem(x), Stem(y))
  {
    hide StrCmp, Stem, Bracketed;
    if Stem(x) <= Stem(y) {
      BracketedPrefix(Stem(x), Stem(y));
    } else if Stem(y) <= Stem(x) {
      BracketedPrefix(Stem(y), Stem(x));
    } else {
      StemTail(x);
      StemTail(y);
      var s, u := if x == Stem(x) then [] else [SLASH], if y == Stem(y) then [] else [SLASH];
      assert x == Stem(x) + s && y == Stem(y) + u;
      StrTails(Stem(x), Stem(y), s, u);
    }
  }

  /** Two coordinates: the numbers when both have them and they differ, else the bytes of the names. */
  lemma BracketedOrder(x: Key, y: Key)
    requires Bracketed(Stem(x)) && Bracketed(Stem(y))
    ensures ChildOrder(x, y) ==
              if Numeric(x) && Numeric(y) && VecCmp(Coords(Stem(x)).value, Coords(Stem(y)).value) != 0
              then VecCmp(Coords(Stem(x)).value, Coords(Stem(y)).value) else StrCmp(x, y)
  {
    hide StrCmp, VecCmp, Coords, Stem, Bracketed;
    StrFlip(Stem(x), Stem(y));
    if Stem(x) != Stem(y) {
      BracketedTails(x, y);
    }
  }

  /** Coordinates in a cycle are two numeric ones and one that is not. */
  lemma BracketedTrans(x: Key, y: Key, z: Key)
    requires Bracketed(Stem(x)) && Bracketed(Stem(y)) && Bracketed(Stem(z))
    requires ChildOrder(x, y) <= 0 && ChildOrder(y, z) <= 0
    ensures ChildOrder(x, z) <= 0 || Straddles(y, x, z) || Straddles(z, y, x) || Straddles(x, z, y)
  {
    hide StrCmp, VecCmp, Coords, Stem, Bracketed, ChildOrder;
    BracketedOrder(x, y);
    BracketedOrder(y, z);
    BracketedOrder(x, z);
    ChildFlip(x, y);
    ChildFlip(y, z);
    ChildFlip(x, z);
    StrFlip(x, y);
    StrFlip(y, z);
    StrFlip(x, z);
    if Numeric(x) && Numeric(y) && Numeric(z) {
      var a, b, c := Coords(Stem(x)).value, Coords(Stem(y)).value, Coords(Stem(z)).value;
      VecTrans(a, b, c);
      if VecCmp(a, c) == 0 {
        StrTrans(x, y, z);
      }
    } else if StrCmp(x, y) <= 0 && StrCmp(y, z) <= 0 {
      StrTrans(x, y, z);
    }
  }

  lemma PlainTrans(x: Key, y: Key, z: Key)
    requires !Bracketed(Stem(x)) || !Bracketed(Stem(y)) || !Bracketed(Stem(z))
    requires ChildOrder(x, y) <= 0 && ChildOrder(y, z) <= 0
    ensures ChildOrder(x, z) <= 0
  {
    hide StrCmp, VecCmp, Coords, Stem, Bracketed;
    var a, b, c := Stem(x), Stem(y), Stem(z);
    if !Bracketed(a) {
      StrTrans(a, b, c);
      StrFlip(a, b);
      StrFlip(b, c);
      if StrCmp(a, c) == 0 {
        StrTrans(x, y, z);
      }
    }
  }

  lemma StraddleCycles(p: Key, u: Key, q: Key)
    requires Straddles(p, u, q)
    ensures ChildOrder(p, q) < 0 && ChildOrder(q, u) < 0 && ChildOrder(u, p) < 0
  {
    hide StrCmp, VecCmp, Coords, Stem, Bracketed, ChildOrder;
    BracketedOrder(q, u);
    BracketedOrder(u, p);
  }

  /** child_cmp orders a set of names iff no non-numeric coordinate straddles two numeric ones. */
  lemma OrderIff(names: set<Key>)
    ensures Transitive(names) <==> forall p, u, q :: p in names && u in names && q in names ==> !Straddles(p, u, q)
  {
    hide ChildOrder, StrCmp, Straddles;
    forall p, u, q | p in names && u in names && q in names && Straddles(p, u, q) ensures !Transitive(names) {
      StraddleCycles(p, u, q);
      ChildFlip(u, p);
    }
    forall x, y, z | x in names && y in names && z in names && ChildOrder(x, y) <= 0 && ChildOrder(y, z) <= 0
      ensures ChildOrder(x, z) <= 0 || Straddles(y, x, z) || Straddles(z, y, x) || Straddles(x, z, y)
    {
      if Bracketed(Stem(x)) && Bracketed(Stem(y)) && Bracketed(Stem(z)) {
        BracketedTrans(x, y, z);
      } else {
        PlainTrans(x, y, z);
      }
    }
  }

  /** Whether three names straddle depends on the children they name, not on their spelling. */
  lemma StraddlesStems(p: Key, u: Key, q: Key, p': Key, u': Key, q': Key)
    requires Straddles(p, u, q) && SameChild(p, p') && SameChild(u, u') && SameChild(q, q')
    ensures Straddles(p', u', q')
  {
    hide StrCmp, VecCmp, Coords, Stem, Bracketed, ChildOrder;
    BracketedBytes(q, u, q', u');
    BracketedBytes(u, p, u', p');
    BracketedOrder(p, q);
    BracketedOrder(p', q');
    StrTrans(q, u, p);
    StrFlip(q, p);
  }

  lemma BracketedBytes(x: Key, y: Key, x': Key, y': Key)
    requires Bracketed(Stem(x)) && Bracketed(Stem(y)) && Stem(x) != Stem(y) && SameChild(x, x') && SameChild(y, y')
    ensures StrCmp(x', y') == StrCmp(x, y)
  {
    hide StrCmp, VecCmp, Coords, Stem, Bracketed, ChildOrder;
    BracketedTails(x, y);
    BracketedTails(x', y');
  }

  /** Names without non-numeric coordinates are always ordered. */
  lemma OrderedWithoutOdd(names: set<Key>)
    requires forall x :: x in names ==> !Odd(x)
    ensures Transitive(names)
  {
    hide Odd, Transitive;
    OrderIff(names);
  }

  const TWO: Key := [OPEN, 0x32, CLOSE]          // [2]
  const TEN: Key := [OPEN, 0x31, 0x30, CLOSE]    // [10]
  const ODD: Key := [OPEN, 0x31, 0x61, CLOSE]    // [1a]

  /** Three names for which child_cmp runs in a circle: [2] < [10] < [1a] < [2]. */
  lemma OrderCycle()
    ensures ChildOrder(TWO, TEN) < 0 && ChildOrder(TEN, ODD) < 0 && ChildOrder(ODD, TWO) < 0
    ensures Straddles(TWO, ODD, TEN)
  {
    var two, ten, odd := TWO, TEN, ODD;
    var one, zero, letter := [0x31, 0x30, CLOSE], [0x30, CLOSE], [0x61, CLOSE];
    assert two[1..] == [0x32, CLOSE] && [0x32, CLOSE][1..] == [CLOSE];
    assert ten[1..] == one && one[1..] == zero && zero[1..] == [CLOSE];
    assert odd[1..] == [0x31, 0x61, CLOSE] && [0x31, 0x61, CLOSE][1..] == letter;
    assert Items([CLOSE], 2, true, MAX_COORDS) == Some([2]) && Items([CLOSE], 10, true, MAX_COORDS) == Some([10]);
    assert Items(zero, 1, true, MAX_COORDS) == Some([10]);
    assert Items(letter, 1, true, MAX_COORDS) == None;
    assert StrCmp(zero, letter) == -1 && StrCmp(odd[1..], two[1..]) == -1;
    assert StrCmp(one, odd[1..]) == -1;
  }

  lemma {:induction false} StrPrefix(a: Key, c: Key)
    requires a <= c
    ensures StrCmp(a, c) <= 0
  {
    if a != [] {
      StrPrefix(a[1..], c[1..]);
    }
  }

  lemma StrBothWays(x: Key, y: Key, z: Key)
    requires x <= z || z <= x
    requires StrCmp(x, y) <= 0 && StrCmp(y, z) <= 0
    ensures x <= y || z <= y
  {
    StrTrans(x, y, z);
    if x <= z {
      StrBetween(x, y, z);
    } else {
      StrPrefix(z, x);
      StrFlip(x, z);
    }
  }

  /** Between the two spellings of a child there is no other child. */
  lemma SameChildAdjacent(x: Key, y: Key, z: Key)
    requires SameChild(x, z) && ChildOrder(x, y) <= 0 && ChildOrder(y, z) <= 0
    ensures SameChild(x, y)
  {
    hide StrCmp, VecCmp, Coords, Bracketed, Stem;
    if Bracketed(Stem(x)) {
      BracketedOrder(x, y);
      BracketedOrder(y, z);
      if Numeric(x) && Numeric(y) {
        VecFlip(Coords(Stem(x)).value, Coords(Stem(y)).value);
      }
      StemTail(x);
      StemTail(z);
      StrBothWays(x, y, z);
      StemTail(y);
      assert Stem(x) <= y;
      BracketedInside(Stem(x), y);
    } else {
      StrFlip(Stem(x), Stem(y));
    }
  }

  lemma BracketedInside(a: Key, y: Key)
    requires Bracketed(a) && a <= y && Bracketed(Stem(y))
    ensures Stem(y) == a
  {
    assert y[|a| - 1] == CLOSE;
  }
}
