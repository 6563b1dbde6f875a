/** Helpers shared by every model and handler: optional values, the
    JavaScript notions the models rely on (white space, `trim`, `||` and `??`
    defaulting, first-occurrence `replace`, `Math.max(lo, Math.min(hi, v))`),
    request body values and the caller identity taken from the authorizer
    claims. */
module Common {

  datatype Option<+T> = None | Some(value: T) {
    /** `x ?? d`: the value when present, the default when absent or null. */
    function GetOr(default: T): T {
      if Some? then value else default
    }
  }

  /** The role that the access rules single out. */
  const Admin: string := "admin"
  const StandardUser: string := "user"

  /** A string property that JavaScript treats as true: present and non-empty. */
  predicate Present(s: Option<string>) {
    s.Some? && s.value != ""
  }

  /** `s || d` for a string property. */
  function OrElse(s: Option<string>, d: string): string {
    if Present(s) then s.value else d
  }

  /** `n || d` for a numeric property (0 is falsy). */
  function OrElseInt(n: Option<int>, d: int): int {
    if n.Some? && n.value != 0 then n.value else d
  }

  // ---------------------------------------------------------------------
  // White space and trim
  // ---------------------------------------------------------------------

  /** The characters that `String.prototype.trim` removes and that the
      regular-expression class `\s` matches: the ECMAScript WhiteSpace and
      LineTerminator code points. */
  predicate IsWhitespace(c: char) {
    c == ' ' || c == '\t' || c == '\n' || c == '\r' || c == '\U{B}' || c == '\U{C}'
    || c == '\U{A0}' || c == '\U{1680}' || ('\U{2000}' <= c <= '\U{200A}')
    || c == '\U{2028}' || c == '\U{2029}' || c == '\U{202F}' || c == '\U{205F}'
    || c == '\U{3000}' || c == '\U{FEFF}'
  }

  /** Empty or made of white space only: `!s || s.trim().length === 0`. */
  predicate IsBlank(s: string) {
    forall i :: 0 <= i < |s| ==> IsWhitespace(s[i])
  }

  function TrimStart(s: string): (r: string)
    ensures |r| <= |s| && r == s[|s| - |r|..]
    ensures r != [] ==> !IsWhitespace(r[0])
    ensures forall i :: 0 <= i < |s| - |r| ==> IsWhitespace(s[i])
  {
    if s != [] && IsWhitespace(s[0]) then TrimStart(s[1..]) else s
  }

  function TrimEnd(s: string): (r: string)
    ensures |r| <= |s| && r == s[..|r|]
    ensures r != [] ==> !IsWhitespace(r[|r| - 1])
    ensures forall i :: |r| <= i < |s| ==> IsWhitespace(s[i])
  {
    if s != [] && IsWhitespace(s[|s| - 1]) then TrimEnd(s[..|s| - 1]) else s
  }

  /** `s.trim()`: the string without leading and trailing white space. */
  function Trim(s: string): (r: string)
    ensures |r| <= |s|
    ensures r == [] <==> IsBlank(s)
    ensures r != [] ==> !IsWhitespace(r[0]) && !IsWhitespace(r[|r| - 1])
  {
    var t := TrimStart(s);
    var r := TrimEnd(t);
    assert r == [] ==> t == [];
    assert r != [] ==> !IsWhitespace(r[0]) by {
      if r != [] {
        assert r[0] == t[0];
      }
    }
    r
  }

  /** A trimmed string that was not blank has no white space at either end,
      so it is not blank either. */
  lemma TrimmedNotBlank(s: string)
    requires !IsBlank(s)
    ensures !IsBlank(Trim(s))
  {
    var t := Trim(s);
    assert !IsWhitespace(t[0]);
  }

  /** Trimming twice is trimming once. */
  lemma {:induction false} TrimIdempotent(s: string)
    ensures Trim(Trim(s)) == Trim(s)
  {
    var r := Trim(s);
    if r != [] {
      assert TrimStart(r) == r;
      assert TrimEnd(r) == r;
    }
  }

  // ---------------------------------------------------------------------
  // First-occurrence replace, as `String.prototype.replace` with a string pattern
  // ---------------------------------------------------------------------

  /** `pat` occurs in `s` starting at index `k`. */
  predicate OccursAt(s: string, pat: string, k: nat) {
    k + |pat| <= |s| && s[k..k + |pat|] == pat
  }

  /** The index of the first occurrence of `pat` in `s`, if any. */
  function IndexOf(s: string, pat: string): (r: Option<nat>)
    ensures r.Some? ==> OccursAt(s, pat, r.value)
    ensures r.Some? ==> forall k: nat :: k < r.value ==> !OccursAt(s, pat, k)
    ensures r.None? ==> forall k: nat :: !OccursAt(s, pat, k)
    decreases |s|
  {
    if |s| < |pat| then None
    else if s[..|pat|] == pat then Some(0)
    else
      var rest := IndexOf(s[1..], pat);
      assert forall k: nat | 1 <= k :: OccursAt(s, pat, k) <==> OccursAt(s[1..], pat, k - 1) by {
        forall k: nat | 1 <= k ensures OccursAt(s, pat, k) <==> OccursAt(s[1..], pat, k - 1) {
          if k + |pat| <= |s| {
            var a, b := s[k..k + |pat|], s[1..][k - 1..k - 1 + |pat|];
            assert |a| == |b|;
            forall j | 0 <= j < |a| ensures a[j] == b[j] {
              assert a[j] == s[k + j];
              assert b[j] == s[1..][k - 1 + j];
            }
            assert a == b;
          }
        }
      }
      assert !OccursAt(s, pat, 0);
      match rest
      case None => None
      case Some(i) => Some(i + 1)
  }

  /** `s.replace(pat, rep)`: the first occurrence of `pat` replaced by `rep`. */
  function ReplaceFirst(s: string, pat: string, rep: string): string {
    match IndexOf(s, pat)
    case None => s
    case Some(i) => s[..i] + rep + s[i + |pat|..]
  }

  /** Removing a prefix that the string starts with gives back the rest. */
  lemma StripPrefix(pat: string, x: string)
    ensures ReplaceFirst(pat + x, pat, "") == x
  {
    assert (pat + x)[..|pat|] == pat;
    assert (pat + x)[|pat|..] == x;
  }

  /** A key built as prefix + value determines the value. */
  lemma PrefixCancel(p: string, a: string, b: string)
    ensures p + a == p + b <==> a == b
  {
    if p + a == p + b {
      assert a == (p + a)[|p|..];
      assert b == (p + b)[|p|..];
    }
  }

  // ---------------------------------------------------------------------
  // Numbers
  // ---------------------------------------------------------------------

  /** `Math.max(lo, Math.min(hi, v))`. */
  function Clamp(v: real, lo: real, hi: real): (r: real)
    requires lo <= hi
    ensures lo <= r <= hi
    ensures lo <= v <= hi ==> r == v
    ensures v < lo ==> r == lo
    ensures v > hi ==> r == hi
  {
    var m := if hi < v then hi else v;
    if lo < m then m else lo
  }

  // ---------------------------------------------------------------------
  // Sequences
  // ---------------------------------------------------------------------

  /** The one error `e` when a check `failed`, nothing otherwise: a
      conditional `errors.push(e)`. */
  function Flag<E(==,!new)>(failed: bool, e: E): (r: seq<E>)
    ensures forall x :: x in r <==> failed && x == e
  {
    if failed then [e] else []
  }

  /** `a` is `b` with some elements left out, the rest kept in order. */
  predicate SubsequenceOf<T(==)>(a: seq<T>, b: seq<T>)
    decreases |b|
  {
    if a == [] then true
    else if b == [] then false
    else (a[0] == b[0] && SubsequenceOf(a[1..], b[1..])) || SubsequenceOf(a, b[1..])
  }

  /** `Array.prototype.filter`. */
  function Filter<T(==,!new)>(s: seq<T>, keep: T -> bool): (r: seq<T>)
    ensures |r| <= |s|
    ensures SubsequenceOf(r, s)
    ensures forall x :: x in r ==> x in s && keep(x)
    ensures forall x :: x in s && keep(x) ==> x in r
    ensures forall x :: multiset(r)[x] == if keep(x) then multiset(s)[x] else 0
  {
    if s == [] then []
    else
      assert s == [s[0]] + s[1..];
      var rest := Filter(s[1..], keep);
      if keep(s[0]) then
        assert ([s[0]] + rest)[1..] == rest;
        [s[0]] + rest
      else rest
  }

  // ---------------------------------------------------------------------
  // Requests
  // ---------------------------------------------------------------------

  /** A value of a parsed JSON request body, with `Missing` for a property
      the body does not have. The handlers only ask whether a value is a
      number or an array, so objects are not looked into. */
  datatype Json = Missing | Null | Bool(b: bool) | Num(n: real) | Str(s: string) | Arr(items: seq<Json>) | Obj

  /** The identity the handlers read from the authorizer claims. */
  datatype Caller = Caller(userId: string, role: string)

  /** `getUserInfo`: the subject claim or 'anonymous', the custom role claim or 'user'. */
  function CallerFromClaims(sub: Option<string>, role: Option<string>): (c: Caller)
    ensures c.userId != "" && c.role != ""
    ensures Present(sub) ==> c.userId == sub.value
    ensures !Present(sub) ==> c.userId == "anonymous"
    ensures Present(role) ==> c.role == role.value
    ensures !Present(role) ==> c.role == StandardUser
  {
    Caller(OrElse(sub, "anonymous"), OrElse(role, StandardUser))
  }
}
