/**
 The client of the contacts HTTP API: the query string of the contact-list
 request and the bearer authorization header every authenticated call sends.
 The requests themselves (fetch, JSON bodies, status handling) are I/O and
 are not part of this module.
 */
module Api {
  import opened Browser

  /** The group filter that means "every group"; it is never sent. */
  const AllGroups := "Todos"

  /** The optional arguments of `listarContatos`. */
  datatype ListQuery = ListQuery(search: Option<string>, skip: Option<int>, limit: Option<int>, grupo: Option<string>)

  // ---------------------------------------------------------------------------
  // Decimal rendering of integers (`Number.prototype.toString` on integers)

  function DigitChar(d: nat): (c: char)
    requires d < 10
    ensures '0' <= c <= '9'
  {
    (d + '0' as int) as char
  }

  function DigitValue(c: char): nat
  {
    if '0' <= c <= '9' then (c - '0') as nat else 0
  }

  /** The decimal digits of `n`, most significant first, without leading zeros. */
  function NatToString(n: nat): (s: string)
    ensures |s| >= 1
    ensures forall i :: 0 <= i < |s| ==> '0' <= s[i] <= '9'
    ensures s[0] == '0' ==> n == 0 && s == "0"
    decreases n
  {
    if n < 10 then [DigitChar(n)] else NatToString(n / 10) + [DigitChar(n % 10)]
  }

  /** `n.toString()` for an integer `n`: a minus sign for negatives, then the digits. */
  function IntToString(n: int): (s: string)
    ensures |s| >= 1
    ensures s[0] == '-' <==> n < 0
    ensures n < 0 ==> |s| >= 2 && s[1] != '0'
    ensures n >= 0 && s[0] == '0' ==> s == "0"
    ensures forall i :: (if n < 0 then 1 else 0) <= i < |s| ==> '0' <= s[i] <= '9'
  {
    if n < 0 then "-" + NatToString(-n) else NatToString(n)
  }

  /** Reads a decimal string back (the reference that `IntToString` must agree with). */
  function ParseNat(s: string): nat
  {
    if s == [] then 0 else ParseNat(s[..|s| - 1]) * 10 + DigitValue(s[|s| - 1])
  }

  function ParseInt(s: string): int
  {
    if |s| > 0 && s[0] == '-' then -(ParseNat(s[1..]) as int) else ParseNat(s)
  }

  lemma {:induction false} NatToStringRoundTrip(n: nat)
    ensures ParseNat(NatToString(n)) == n
    decreases n
  {
    var s := NatToString(n);
    if n >= 10 {
      NatToStringRoundTrip(n / 10);
      assert s[..|s| - 1] == NatToString(n / 10);
    }
  }

  /** The value sent for `skip` and `limit` is the decimal form of the number: reading it back gives the number. */
  lemma {:induction false} IntToStringRoundTrip(n: int)
    ensures ParseInt(IntToString(n)) == n
  {
    if n < 0 {
      NatToStringRoundTrip(-n);
      assert IntToString(n)[1..] == NatToString(-n);
    } else {
      NatToStringRoundTrip(n);
    }
  }

  // ---------------------------------------------------------------------------
  // The list query string

  /** Position of each parameter name in the order the builder appends them. */
  function KeyRank(key: string): nat
  {
    if key == "search" then 0
    else if key == "skip" then 1
    else if key == "limit" then 2
    else if key == "grupo" then 3
    else 4
  }

  /** `URLSearchParams.get(key)`: the value of the first pair named `key`, or null. */
  function Lookup(params: seq<(string, string)>, key: string): Option<string>
  {
    if params == [] then None
    else if params[0].0 == key then Some(params[0].1)
    else Lookup(params[1..], key)
  }

  /** Names in strictly increasing rank: the builder's order, each name at most once. */
  predicate InOrder(params: seq<(string, string)>)
  {
    forall i, j :: 0 <= i < j < |params| ==> KeyRank(params[i].0) < KeyRank(params[j].0)
  }

  /** Every name in the list ranks below `bound`. */
  predicate RanksBelow(params: seq<(string, string)>, bound: nat)
  {
    forall i :: 0 <= i < |params| ==> KeyRank(params[i].0) < bound
  }

  /**
   The value each name should carry for `q`, or None when it must be left
   out: `search` iff it is non-empty, `skip` and `limit` iff they are
   non-zero (as decimal strings), and `grupo` iff it is non-empty and not
   "Todos".
   */
  function Wanted(q: ListQuery, key: string): Option<string>
  {
    if key == "search" then (if TruthyString(q.search) then q.search else None)
    else if key == "skip" then (if TruthyNumber(q.skip) then Some(IntToString(q.skip.value)) else None)
    else if key == "limit" then (if TruthyNumber(q.limit) then Some(IntToString(q.limit.value)) else None)
    else if key == "grupo" then (if TruthyString(q.grupo) && q.grupo.value != AllGroups then q.grupo else None)
    else None
  }

  /**
   What the query string of `listarContatos` says about its arguments: the
   names appear in the order search, skip, limit, grupo, each at most once
   and nothing else, and each carries its `Wanted` value.
   */
  predicate DescribesQuery(params: seq<(string, string)>, q: ListQuery)
  {
    && InOrder(params)
    && RanksBelow(params, 4)
    && Lookup(params, "search") == Wanted(q, "search")
    && Lookup(params, "skip") == Wanted(q, "skip")
    && Lookup(params, "limit") == Wanted(q, "limit")
    && Lookup(params, "grupo") == Wanted(q, "grupo")
  }

  /** A name that ranks at or above every name in the list is not in it. */
  lemma {:induction false} LookupAbsent(params: seq<(string, string)>, key: string, bound: nat)
    requires RanksBelow(params, bound) && bound <= KeyRank(key)
    ensures Lookup(params, key) == None
  {
    if params != [] {
      LookupAbsent(params[1..], key, bound);
    }
  }

  lemma {:induction false} LookupAppend(params: seq<(string, string)>, pair: (string, string), key: string)
    ensures Lookup(params + [pair], key) ==
      if Lookup(params, key).Some? then Lookup(params, key)
      else if pair.0 == key then Some(pair.1)
      else None
  {
    if params != [] {
      assert (params + [pair])[1..] == params[1..] + [pair];
      LookupAppend(params[1..], pair, key);
    } else {
      assert [] + [pair] == [pair];
    }
  }

  /**
   One `append` of a name ranking above everything already there: the order
   is kept, the new name maps to its value and no other name's lookup moves.
   */
  lemma {:induction false} AppendInOrder(params: seq<(string, string)>, pair: (string, string))
    requires InOrder(params) && RanksBelow(params, KeyRank(pair.0)) && KeyRank(pair.0) < 4
    ensures InOrder(params + [pair]) && RanksBelow(params + [pair], KeyRank(pair.0) + 1)
    ensures Lookup(params + [pair], pair.0) == Some(pair.1)
    ensures forall key :: key != pair.0 ==> Lookup(params + [pair], key) == Lookup(params, key)
  {
    LookupAbsent(params, pair.0, KeyRank(pair.0));
    LookupAppend(params, pair, pair.0);
    forall key | key != pair.0
      ensures Lookup(params + [pair], key) == Lookup(params, key)
    {
      LookupAppend(params, pair, key);
    }
  }

  /** The list after the builder has decided the first `k` names. */
  ghost predicate Decided(params: seq<(string, string)>, q: ListQuery, k: nat)
  {
    && InOrder(params)
    && RanksBelow(params, k)
    && |params| <= k
    && forall key :: KeyRank(key) < k ==> Lookup(params, key) == Wanted(q, key)
  }

  /** Deciding the name of rank `k`: append it exactly when it is wanted. */
  lemma {:induction false} DecideNext(params: seq<(string, string)>, q: ListQuery, k: nat, key: string)
    requires Decided(params, q, k) && k < 4 && KeyRank(key) == k
    ensures Wanted(q, key).Some? ==> Decided(params + [(key, Wanted(q, key).value)], q, k + 1)
    ensures Wanted(q, key).None? ==> Decided(params, q, k + 1)
  {
    forall other | KeyRank(other) == k
      ensures other == key
    {
    }
    if Wanted(q, key).Some? {
      AppendInOrder(params, (key, Wanted(q, key).value));
    } else {
      LookupAbsent(params, key, k);
    }
  }

  /** Once all four names are decided, the list is the query string `DescribesQuery` asks for. */
  lemma {:induction false} DecidedDescribes(params: seq<(string, string)>, q: ListQuery)
    requires Decided(params, q, 4)
    ensures DescribesQuery(params, q)
  {
    assert KeyRank("search") < 4 && KeyRank("skip") < 4 && KeyRank("limit") < 4 && KeyRank("grupo") < 4;
  }

  /**
   The body of `listarContatos` up to the request: one conditional
   `params.append` per argument, in source order.
   */
  method ListParams(q: ListQuery) returns (params: seq<(string, string)>)
    ensures |params| <= 4
    ensures DescribesQuery(params, q)
  {
    params := [];
    DecideNext(params, q, 0, "search");
    if TruthyString(q.search) {
      params := params + [("search", q.search.value)];
    }
    assert Decided(params, q, 1);
    DecideNext(params, q, 1, "skip");
    if TruthyNumber(q.skip) {
      params := params + [("skip", IntToString(q.skip.value))];
    }
    assert Decided(params, q, 2);
    DecideNext(params, q, 2, "limit");
    if TruthyNumber(q.limit) {
      params := params + [("limit", IntToString(q.limit.value))];
    }
    assert Decided(params, q, 3);
    DecideNext(params, q, 3, "grupo");
    if TruthyString(q.grupo) && q.grupo.value != AllGroups {
      params := params + [("grupo", q.grupo.value)];
    }
    DecidedDescribes(params, q);
  }

  /**
   The query string is empty exactly when no argument is worth sending: with
   the page's defaults (an empty search, no paging, group "Todos") the list
   request carries no parameters.
   */
  lemma {:induction false} EmptyQueryString(params: seq<(string, string)>, q: ListQuery)
    requires DescribesQuery(params, q)
    ensures params == [] <==>
      && !TruthyString(q.search)
      && !TruthyNumber(q.skip)
      && !TruthyNumber(q.limit)
      && !(TruthyString(q.grupo) && q.grupo.value != AllGroups)
  {
    if params != [] {
      var key := params[0].0;
      assert KeyRank(key) < 4;
      assert Lookup(params, key) == Some(params[0].1);
    }
  }

  // ---------------------------------------------------------------------------
  // Authorization

  /** The `Authorization` header value of every authenticated request. */
  function Authorization(token: string): (h: string)
    ensures |h| == |token| + 7
    ensures h[..7] == "Bearer "
    ensures h[7..] == token
  {
    "Bearer " + token
  }

  /**
   Reading back a header of the client's own form: the scheme "Bearer",
   exactly one space, then the token, whatever its characters; anything
   else carries no token.
   */
  function BearerToken(header: string): Option<string>
  {
    if |header| >= 7 && header[..7] == "Bearer " then Some(header[7..]) else None
  }

  /** The header the client sends always reads back as exactly its token. */
  lemma {:induction false} AuthorizationRoundTrip(token: string)
    ensures BearerToken(Authorization(token)) == Some(token)
  {
  }

  /** Distinct tokens give distinct headers. */
  lemma {:induction false} AuthorizationInjective(a: string, b: string)
    requires Authorization(a) == Authorization(b)
    ensures a == b
  {
    AuthorizationRoundTrip(a);
    AuthorizationRoundTrip(b);
  }
}
