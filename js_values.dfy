/**
 * The pieces of JavaScript semantics that config.ts depends on: reading
 * `process.env`, string truthiness, the `||` operator on strings, and
 * `String.prototype.trim`.
 */
module JsValues {
  import opened Wrappers

  /** A snapshot of `process.env`: a variable that is not set has no key. */
  type Env = map<string, string>

  /** `process.env[name]`: `undefined` when the variable is not set. */
  function EnvGet(env: Env, name: string): (r: Option<string>)
    ensures r.Some? <==> name in env
    ensures r.Some? ==> r.value == env[name]
  {
    if name in env then Some(env[name]) else None
  }

  /** JavaScript truthiness of a `string | undefined`: only `undefined` and `""` are falsy. */
  predicate Truthy(v: Option<string>) {
    v.Some? && v.value != ""
  }

  /** `a || b` on `string | undefined`: `a` when `a` is truthy, otherwise `b`. */
  function Or(a: Option<string>, b: Option<string>): (r: Option<string>)
    ensures Truthy(a) ==> r == a
    ensures !Truthy(a) ==> r == b
  {
    if Truthy(a) then a else b
  }

  /**
   * The characters `trim` removes: the ECMAScript WhiteSpace code points
   * (TAB, VT, FF, SPACE, NBSP, ZWNBSP and the Unicode Zs category) and the
   * LineTerminator code points (LF, CR, LS, PS).
   */
  predicate IsWhiteSpace(c: char) {
    var n := c as int;
    n == 0x9 || n == 0xA || n == 0xB || n == 0xC || n == 0xD || n == 0x20
    || n == 0xA0 || n == 0x1680 || (0x2000 <= n <= 0x200A)
    || n == 0x2028 || n == 0x2029 || n == 0x202F || n == 0x205F
    || n == 0x3000 || n == 0xFEFF
  }

  /** Every character of `s` is white space (true of `""`). */
  predicate AllWhiteSpace(s: string) {
    forall i :: 0 <= i < |s| ==> IsWhiteSpace(s[i])
  }

  /** Drops the leading white space of `s`. */
  function TrimStart(s: string): (r: string)
    ensures |r| <= |s| && r == s[|s| - |r|..]
    ensures AllWhiteSpace(s[..|s| - |r|])
    ensures r == [] || !IsWhiteSpace(r[0])
  {
    if s != [] && IsWhiteSpace(s[0]) then
      var r := TrimStart(s[1..]);
      assert s[..|s| - |r|] == [s[0]] + s[1..][..|s| - 1 - |r|];
      r
    else
      s
  }

  /** Drops the trailing white space of `s`. */
  function TrimEnd(s: string): (r: string)
    ensures |r| <= |s| && r == s[..|r|]
    ensures AllWhiteSpace(s[|r|..])
    ensures r == [] || !IsWhiteSpace(r[|r| - 1])
  {
    if s != [] && IsWhiteSpace(s[|s| - 1]) then
      var r := TrimEnd(s[..|s| - 1]);
      assert s[|r|..] == s[..|s| - 1][|r|..] + [s[|s| - 1]];
      r
    else
      s
  }

  /**
   * `s.trim()`: drops leading and trailing white space. The result is the
   * contiguous part of `s` between a white-space prefix and a white-space
   * suffix, and it neither starts nor ends with white space.
   */
  function Trim(s: string): (r: string)
    ensures exists k :: 0 <= k <= |s| - |r| && r == s[k..k + |r|]
                        && AllWhiteSpace(s[..k]) && AllWhiteSpace(s[k + |r|..])
    ensures r == [] || (!IsWhiteSpace(r[0]) && !IsWhiteSpace(r[|r| - 1]))
  {
    var t := TrimStart(s);
    var r := TrimEnd(t);
    var k := |s| - |t|;
    assert r == s[k..k + |r|];
    assert s[k + |r|..] == t[|r|..];
    r
  }

  /** `s.trim()` is empty exactly when `s` holds nothing but white space. */
  lemma TrimEmptyIffAllWhiteSpace(s: string)
    ensures Trim(s) == "" <==> AllWhiteSpace(s)
  {
    var t := TrimStart(s);
    if Trim(s) == "" {
      assert s[..|s|] == s;
    } else {
      var r := Trim(s);
      assert !IsWhiteSpace(r[|r| - 1]);
      assert r == t[..|r|];
      assert r[|r| - 1] == s[|s| - |t| + |r| - 1];
    }
  }
}
