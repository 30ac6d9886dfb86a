/** A serialization of claims that meets the law which transfer tokens rely on. */
module TokenCodec {
  import opened Wrappers
  import opened Transfer

  function TextNumbers(text: string): seq<nat> {
    [|text|] + seq(|text|, i requires 0 <= i < |text| => text[i] as nat)
  }

  function IntNumbers(x: int): seq<nat> {
    if x < 0 then [1, -x] else [0, x]
  }

  function Numbers(claims: Claims): seq<nat> {
    TextNumbers(claims.op) + (TextNumbers(claims.key) + (TextNumbers(claims.contentType) + (TextNumbers(claims.sha)
      + (IntNumbers(claims.exp) + (IntNumbers(claims.size) + [])))))
  }

  function Ones(n: nat): Bytes {
    seq(n, _ => 1)
  }

  /** Each number as that many ones and a zero. */
  function Unary(numbers: seq<nat>): Bytes {
    if numbers == [] then [] else Ones(numbers[0]) + ([0] + Unary(numbers[1..]))
  }

  function Marshal(claims: Claims): Bytes {
    Unary(Numbers(claims))
  }

  lemma OnesPrefix(m: nat, n: nat, x: Bytes, y: Bytes)
    requires Ones(m) + ([0] + x) == Ones(n) + ([0] + y)
    ensures m == n && x == y
  {
    var whole := Ones(m) + ([0] + x);
    assert whole[m] == 0 && forall i | 0 <= i < m :: whole[i] == 1;
    assert whole[n] == 0 && forall i | 0 <= i < n :: whole[i] == 1;
    assert whole[m + 1..] == x;
    assert whole[n + 1..] == y;
  }

  lemma {:induction false} UnaryInjective(a: seq<nat>, b: seq<nat>)
    requires Unary(a) == Unary(b)
    ensures a == b
  {
    if a != [] && b != [] {
      OnesPrefix(a[0], b[0], Unary(a[1..]), Unary(b[1..]));
      UnaryInjective(a[1..], b[1..]);
      assert a == [a[0]] + a[1..] && b == [b[0]] + b[1..];
    }
  }

  lemma TextPrefix(s: string, t: string, x: seq<nat>, y: seq<nat>)
    requires TextNumbers(s) + x == TextNumbers(t) + y
    ensures s == t && x == y
  {
    var whole := TextNumbers(s) + x;
    assert whole[0] == |s| == |t|;
    assert forall i | 0 <= i < |s| :: whole[i + 1] == s[i] as nat && whole[i + 1] == t[i] as nat;
    assert whole[|s| + 1..] == x;
    assert whole[|t| + 1..] == y;
  }

  lemma IntPrefix(m: int, n: int, x: seq<nat>, y: seq<nat>)
    requires IntNumbers(m) + x == IntNumbers(n) + y
    ensures m == n && x == y
  {
    var whole := IntNumbers(m) + x;
    assert whole[0] == IntNumbers(m)[0] == IntNumbers(n)[0];
    assert whole[1] == IntNumbers(m)[1] == IntNumbers(n)[1];
    assert whole[2..] == x;
    assert whole[2..] == y;
  }

  lemma MarshalInjective(c: Claims, d: Claims)
    requires Marshal(c) == Marshal(d)
    ensures c == d
  {
    hide Unary, TextNumbers, IntNumbers;
    UnaryInjective(Numbers(c), Numbers(d));
    var sizes, sizes2 := IntNumbers(c.size) + [], IntNumbers(d.size) + [];
    var exps, exps2 := IntNumbers(c.exp) + sizes, IntNumbers(d.exp) + sizes2;
    var shas, shas2 := TextNumbers(c.sha) + exps, TextNumbers(d.sha) + exps2;
    var types, types2 := TextNumbers(c.contentType) + shas, TextNumbers(d.contentType) + shas2;
    TextPrefix(c.op, d.op, TextNumbers(c.key) + types, TextNumbers(d.key) + types2);
    TextPrefix(c.key, d.key, types, types2);
    TextPrefix(c.contentType, d.contentType, shas, shas2);
    TextPrefix(c.sha, d.sha, exps, exps2);
    IntPrefix(c.exp, d.exp, sizes, sizes2);
    IntPrefix(c.size, d.size, [], []);
  }

  ghost predicate Marshalled(bytes: Bytes, claims: Claims) {
    InRange(claims) && Marshal(claims) == bytes
  }

  ghost function Unmarshal(bytes: Bytes): Option<Claims> {
    if exists claims :: Marshalled(bytes, claims) then
      var claims :| Marshalled(bytes, claims); Some(claims)
    else None
  }

  /** The law of transfer tokens can be met. */
  lemma LawIsMet()
    ensures CodecLaw(Codec(Marshal, bytes => Unmarshal(bytes), (_, _) => [0]))
  {
    forall claims ensures Marshal(claims) != [] && (InRange(claims) ==> Unmarshal(Marshal(claims)) == Some(claims)) {
      MarshalsSomething(claims);
      if InRange(claims) {
        assert Marshalled(Marshal(claims), claims);
        MarshalInjective(Unmarshal(Marshal(claims)).value, claims);
      }
    }
  }

  lemma MarshalsSomething(claims: Claims)
    ensures Marshal(claims) != []
  {
    assert Numbers(claims) != [] by {
      assert |TextNumbers(claims.op)| > 0;
    }
  }
}
