/** Shared vocabulary of the marketplace model: identities, callers, outcomes of a
    handler, and small sequence utilities (filtering, prefixes, counting). */
module Common {

  /** Opaque document identity; the model only compares identities for equality. */
  type Id = nat

  datatype Option<T> = None | Some(value: T) {
    function GetOr(default: T): T {
      match this
      case Some(v) => v
      case None => default
    }
  }

  /** What a handler answers: the document(s), or one of the error replies (no signed-in
      user, a user without the right, a missing document, a payload a validator rejects). */
  datatype Outcome<T> = Ok(value: T) | Unauthenticated | Forbidden | NotFound | Invalid

  /** A stored role name other than the three the handlers test for. */
  type UnknownRoleName = s: string | s != "buyer" && s != "artisan" && s != "admin" witness ""

  /** The role of an authenticated user; any role name outside the three known ones is kept. */
  datatype Role = Buyer | Artisan | Admin | OtherRole(name: UnknownRoleName)

  /** The identity and role that the authentication layer attaches to a call. */
  datatype Caller = Caller(id: Id, role: Role)

  function RoleName(r: Role): (n: string)
    ensures r.OtherRole? ==> n == r.name
  {
    match r
    case Buyer => "buyer"
    case Artisan => "artisan"
    case Admin => "admin"
    case OtherRole(name) => name
  }

  /** The role a stored `role` string denotes, as the handlers' `role === '…'` tests read it. */
  function ParseRole(name: string): (r: Role)
    ensures RoleName(r) == name
  {
    if name == "buyer" then Buyer
    else if name == "artisan" then Artisan
    else if name == "admin" then Admin
    else OtherRole(name)
  }

  /** Every role has exactly one name: reading a role's name gives the role back. */
  lemma RoleNameRoundTrip(r: Role)
    ensures ParseRole(RoleName(r)) == r
  {
  }

  /** JavaScript truthiness of an optional query-string parameter: present and non-empty. */
  predicate Given(p: Option<string>) {
    p.Some? && p.value != ""
  }

  /** `Array.prototype.filter`: the elements satisfying `keep`, in their original order. */
  function Filter<T>(s: seq<T>, keep: T -> bool): (r: seq<T>)
    ensures |r| <= |s|
    ensures forall x :: x in r ==> x in s && keep(x)
    ensures forall x :: x in s && keep(x) ==> x in r
  {
    if s == [] then []
    else if keep(s[0]) then [s[0]] + Filter(s[1..], keep)
    else Filter(s[1..], keep)
  }

  /** Filtering works piece by piece: the kept elements of a + b are those of a, then those of b. */
  lemma {:induction false} FilterAppend<T>(a: seq<T>, b: seq<T>, keep: T -> bool)
    ensures Filter(a + b, keep) == Filter(a, keep) + Filter(b, keep)
  {
    if a == [] {
      assert a + b == b;
    } else {
      assert (a + b)[0] == a[0] && (a + b)[1..] == a[1..] + b;
      FilterAppend(a[1..], b, keep);
    }
  }

  /** The number of elements satisfying `keep` (`filter(...).length`). */
  function Count<T>(s: seq<T>, keep: T -> bool): nat {
    |Filter(s, keep)|
  }

  /** `Array.prototype.slice(0, n)`: the first min(n, |s|) elements. */
  function Take<T>(s: seq<T>, n: nat): (r: seq<T>)
    ensures |r| == if n < |s| then n else |s|
    ensures r <= s
  {
    if n < |s| then s[..n] else s
  }

  predicate NoDup<T(==)>(s: seq<T>) {
    forall i, j :: 0 <= i < j < |s| ==> s[i] != s[j]
  }

  /** Counting one more element adds one exactly when it passes the filter, as a left-to-right
      tally (`reduce`) over the sequence would. */
  lemma {:induction false} CountSnoc<T>(s: seq<T>, x: T, keep: T -> bool)
    ensures Count(s + [x], keep) == Count(s, keep) + (if keep(x) then 1 else 0)
  {
    if s == [] {
      assert [] + [x] == [x];
      assert [x][1..] == [];
    } else {
      assert (s + [x])[1..] == s[1..] + [x];
      CountSnoc(s[1..], x, keep);
    }
  }

  /** A stronger filter counts no more elements than a weaker one. */
  lemma {:induction false} CountMono<T>(s: seq<T>, p: T -> bool, q: T -> bool)
    requires forall x :: p(x) ==> q(x)
    ensures Count(s, p) <= Count(s, q)
  {
    if s != [] {
      CountMono(s[1..], p, q);
    }
  }

  /** Two filters that never both hold count at most |s| elements together. */
  lemma {:induction false} CountDisjoint<T>(s: seq<T>, p: T -> bool, q: T -> bool)
    requires forall x :: !(p(x) && q(x))
    ensures Count(s, p) + Count(s, q) <= |s|
  {
    if s != [] {
      CountDisjoint(s[1..], p, q);
    }
  }

  /** Three pairwise exclusive filters count at most |s| elements together. */
  lemma {:induction false} CountDisjoint3<T>(s: seq<T>, p: T -> bool, q: T -> bool, r: T -> bool)
    requires forall x :: !(p(x) && q(x)) && !(p(x) && r(x)) && !(q(x) && r(x))
    ensures Count(s, p) + Count(s, q) + Count(s, r) <= |s|
  {
    if s != [] {
      CountDisjoint3(s[1..], p, q, r);
    }
  }
}
