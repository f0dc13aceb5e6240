/** Strategic contexts, and the string under which everything about a context is stored. */
module Contexts {
  import opened Base

  datatype StrategicContext = StrategicContext(
    country: string, region: Option<string>, goal: Option<string>, domain: string)

  /** `part or '*'`: an empty part counts as a missing one. */
  function OrStar(part: Option<string>): (r: string)
    ensures r != ""
  {
    if part.None? || part.value == "" then "*" else part.value
  }

  /** `str(context)`: memory, ledger and backend know a context by nothing else. */
  function StoreKey(c: StrategicContext): string {
    c.country + "/" + (OrStar(c.region) + "/" + (c.domain + "/" + OrStar(c.goal)))
  }

  /** Another context that is stored in the same place, under another domain. */
  predicate Collides(c: StrategicContext, d: StrategicContext) {
    StoreKey(d) == StoreKey(c) && d.domain != c.domain
  }

  ghost predicate Collidable(c: StrategicContext) {
    exists d :: Collides(c, d)
  }

  // ---------------------------------------------------------------- when keys collide

  function Slashes(s: string): nat {
    if s == "" then 0 else (if s[0] == '/' then 1 else 0) + Slashes(s[1..])
  }

  lemma {:induction false} SlashesConcat(a: string, b: string)
    ensures Slashes(a + b) == Slashes(a) + Slashes(b)
    decreases |a|
  {
    if a == "" {
      assert a + b == b;
    } else {
      SlashesConcat(a[1..], b);
      assert (a + b)[1..] == a[1..] + b;
    }
  }

  lemma {:induction false} NoSlash(s: string)
    ensures Slashes(s) == 0 <==> '/' !in s
    decreases |s|
  {
    if s != "" {
      NoSlash(s[1..]);
      assert forall x :: x in s <==> x == s[0] || x in s[1..];
    }
  }

  lemma SlashBetween(a: string, b: string)
    ensures Slashes(a + "/" + b) == Slashes(a) + 1 + Slashes(b)
  {
    SlashesConcat(a + "/", b);
    SlashesConcat(a, "/");
    assert "/"[1..] == "";
  }

  lemma KeySlashes(c: StrategicContext)
    ensures Slashes(StoreKey(c))
            == 3 + Slashes(c.country) + Slashes(OrStar(c.region)) + Slashes(c.domain) + Slashes(OrStar(c.goal))
  {
    SlashBetween(c.domain, OrStar(c.goal));
    SlashBetween(OrStar(c.region), c.domain + "/" + OrStar(c.goal));
    SlashBetween(c.country, OrStar(c.region) + "/" + (c.domain + "/" + OrStar(c.goal)));
  }

  /** A string without a slash, up to the first slash, is determined. */
  lemma {:induction false} HeadIsDetermined(a: string, r: string, b: string, t: string)
    requires '/' !in a && '/' !in b && a + "/" + r == b + "/" + t
    ensures a == b && r == t
    decreases |a|
  {
    var s, u := a + "/" + r, b + "/" + t;
    if a == "" {
      assert s[0] == '/';
      assert b == "";
      assert s[1..] == r && u[1..] == t;
    } else {
      assert s[0] == a[0];
      assert b != "" && u[0] == b[0];
      assert s[1..] == a[1..] + "/" + r && u[1..] == b[1..] + "/" + t;
      HeadIsDetermined(a[1..], r, b[1..], t);
      assert a == [a[0]] + a[1..] && b == [b[0]] + b[1..];
    }
  }

  /** Country, region and goal without a slash. */
  predicate PlainParts(c: StrategicContext) {
    '/' !in c.country && '/' !in OrStar(c.region) && '/' !in OrStar(c.goal)
  }

  lemma PlainKeyIsDetermined(c: StrategicContext, d: StrategicContext)
    requires StoreKey(c) == StoreKey(d) && PlainParts(c) && '/' !in c.domain
    ensures c.domain == d.domain
  {
    KeySlashes(c);
    KeySlashes(d);
    NoSlash(c.country);
    NoSlash(OrStar(c.region));
    NoSlash(c.domain);
    NoSlash(OrStar(c.goal));
    NoSlash(d.country);
    NoSlash(OrStar(d.region));
    NoSlash(d.domain);
    HeadIsDetermined(c.country, OrStar(c.region) + "/" + (c.domain + "/" + OrStar(c.goal)),
                     d.country, OrStar(d.region) + "/" + (d.domain + "/" + OrStar(d.goal)));
    HeadIsDetermined(OrStar(c.region), c.domain + "/" + OrStar(c.goal), OrStar(d.region),
                     d.domain + "/" + OrStar(d.goal));
    HeadIsDetermined(c.domain, OrStar(c.goal), d.domain, OrStar(d.goal));
  }

  lemma {:induction false} SplitAtSlash(s: string) returns (front: string, back: string)
    requires '/' in s
    ensures s == front + "/" + back
    decreases |s|
  {
    if s[0] == '/' {
      front, back := "", s[1..];
    } else {
      assert forall x :: x in s <==> x == s[0] || x in s[1..];
      front, back := SplitAtSlash(s[1..]);
      assert s == [s[0]] + s[1..];
      front := [s[0]] + front;
    }
  }

  /** A slash in the domain lets the region take the front of it. */
  lemma SlashedDomainCollides(c: StrategicContext) returns (d: StrategicContext)
    requires '/' in c.domain
    ensures Collides(c, d)
  {
    var front, back := SplitAtSlash(c.domain);
    d := StrategicContext(c.country, Some(OrStar(c.region) + "/" + front), c.goal, back);
    assert OrStar(c.region) + "/" + (front + "/" + back + "/" + OrStar(c.goal))
        == OrStar(c.region) + "/" + front + "/" + (back + "/" + OrStar(c.goal));
  }

  /** With plain country, region and goal, a context shares its place with another domain exactly when its own domain
      has a slash in it. */
  lemma CollidableIffSlash(c: StrategicContext)
    requires PlainParts(c)
    ensures Collidable(c) <==> '/' in c.domain
  {
    if '/' in c.domain {
      var d := SlashedDomainCollides(c);
    } else {
      forall d | StoreKey(d) == StoreKey(c) ensures d.domain == c.domain {
        PlainKeyIsDetermined(c, d);
      }
    }
  }
}
