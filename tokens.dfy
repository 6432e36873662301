/** The token registry of the manager service (`SdkTokenManager`, and its
    older twin `CodeTokenManager`): a bidirectional mapping between
    (calling uid, SDK name) keys and opaque tokens.  A token is a fresh
    `new Binder()` in the source; here it is a number taken from a counter
    that only grows, so a token is never handed out twice. */
module Tokens {
  import opened Common

  type Token = nat

  /** `Pair.create(callingUid, name)`. */
  datatype Key = Key(callingUid: int, name: string)

  /** The registry's two maps and the next unused token. */
  datatype Registry = Registry(tokens: map<Key, Token>, reverse: map<Token, Key>, next: nat)

  /** The two maps describe one bijection, and every token in use is below `next`. */
  ghost predicate RegistryValid(r: Registry) {
    && (forall k | k in r.tokens :: r.tokens[k] in r.reverse && r.reverse[r.tokens[k]] == k)
    && (forall t | t in r.reverse :: r.reverse[t] in r.tokens && r.tokens[r.reverse[t]] == t)
    && (forall t | t in r.reverse :: t < r.next)
  }

  function EmptyRegistry(): Registry {
    Registry(map[], map[], 0)
  }

  /** `createOrGetSdkToken`: the registered token of `key`, or a fresh one registered for it. */
  function CreateOrGet(r: Registry, key: Key): (Registry, Token) {
    if key in r.tokens then (r, r.tokens[key])
    else (Registry(r.tokens[key := r.next], r.reverse[r.next := key], r.next + 1), r.next)
  }

  /** `destroy`: forget the token and the key it stood for; an unknown token changes nothing. */
  function Destroyed(r: Registry, token: Token): Registry {
    r.(tokens := if token in r.reverse then r.tokens - {r.reverse[token]} else r.tokens,
       reverse := r.reverse - {token})
  }

  /** One line per registered key of the dump. */
  function DumpLine(k: Key): string {
    "callingUid: " + IntToString(k.callingUid) + ", name: " + k.name
  }

  /** The dump lines of the keys, in the given order. */
  function DumpLines(order: seq<Key>): (lines: seq<string>)
    ensures |lines| == |order|
  {
    if order == [] then [] else [DumpLine(order[0])] + DumpLines(order[1..])
  }

  /** The registry's dump: an "is empty" line, or a size line followed by one
      line per key in the order the map yields them. */
  function RegistryDump(mapName: string, tokens: map<Key, Token>, order: seq<Key>): seq<string> {
    if tokens == map[] then [mapName + " is empty"]
    else [mapName + " size: " + IntToString(|tokens|)] + DumpLines(order)
  }

  lemma {:induction false} DumpLinesAppend(order: seq<Key>, k: Key)
    ensures DumpLines(order + [k]) == DumpLines(order) + [DumpLine(k)]
  {
    if order != [] {
      assert (order + [k])[1..] == order[1..] + [k];
      DumpLinesAppend(order[1..], k);
    }
  }

  /** The dump prints line `i` for the `i`-th key. */
  lemma {:induction false} DumpLinesAt(order: seq<Key>, i: nat)
    requires i < |order|
    ensures DumpLines(order)[i] == DumpLine(order[i])
  {
    if i > 0 {
      DumpLinesAt(order[1..], i - 1);
    }
  }

  lemma EmptyRegistryValid()
    ensures RegistryValid(EmptyRegistry())
  {
  }

  /** Asking twice for the same key yields the same token; a new key gets a token
      no other key holds, and nothing else is disturbed. */
  lemma CreateOrGetProperties(r: Registry, key: Key)
    requires RegistryValid(r)
    ensures var (r', t) := CreateOrGet(r, key);
      && RegistryValid(r')
      && key in r'.tokens && r'.tokens[key] == t
      && t in r'.reverse && r'.reverse[t] == key
      && (key in r.tokens ==> r' == r)
      && (key !in r.tokens ==> t !in r.reverse && r'.tokens.Keys == r.tokens.Keys + {key}
                               && r'.reverse.Keys == r.reverse.Keys + {t}
                               && (forall k | k in r.tokens :: r'.tokens[k] == r.tokens[k]))
      && CreateOrGet(r', key) == (r', t)
  {
  }

  /** After `destroy` the token is unknown in both directions, every other
      registration survives, and nothing is added. */
  lemma DestroyProperties(r: Registry, token: Token)
    requires RegistryValid(r)
    ensures var r' := Destroyed(r, token);
      && RegistryValid(r')
      && token !in r'.reverse
      && (token in r.reverse ==> r.reverse[token] !in r'.tokens)
      && (token !in r.reverse ==> r' == r)
      && (forall k | k in r.tokens && r.tokens[k] != token :: k in r'.tokens && r'.tokens[k] == r.tokens[k])
      && r'.tokens.Keys <= r.tokens.Keys
      && r'.reverse == r.reverse - {token}
      && r'.next == r.next
      && Destroyed(r', token) == r'
  {
  }

  /** A key whose token was destroyed is free again: asking for it hands out a new token. */
  lemma DestroyThenCreateIsFresh(r: Registry, key: Key)
    requires RegistryValid(r) && key in r.tokens
    ensures var (r', t) := CreateOrGet(Destroyed(r, r.tokens[key]), key);
      t != r.tokens[key] && t !in r.reverse && t == r.next
  {
  }

  /** Creating a token for a new key and destroying it again leaves both maps as they were. */
  lemma CreateThenDestroyRestores(r: Registry, key: Key)
    requires RegistryValid(r) && key !in r.tokens
    ensures var (r', t) := CreateOrGet(r, key);
      Destroyed(r', t).tokens == r.tokens && Destroyed(r', t).reverse == r.reverse
  {
    var (r', t) := CreateOrGet(r, key);
    assert t !in r.reverse;
    assert Destroyed(r', t).tokens == r.tokens;
    assert Destroyed(r', t).reverse == r.reverse;
  }

  /** One dump line per key of `keys`, in the order the set is walked (`order`). */
  method DumpKeys(keys: set<Key>) returns (body: seq<string>, ghost order: seq<Key>)
    ensures Enumerates(order, keys)
    ensures body == DumpLines(order)
  {
    order := [];
    body := [];
    var remaining := keys;
    ghost var done: set<Key> := {};
    while remaining != {}
      invariant remaining + done == keys && remaining !! done
      invariant Enumerates(order, done)
      invariant body == DumpLines(order)
      decreases |remaining|
    {
      var k :| k in remaining;
      assert k !in done;
      body := body + [DumpLine(k)];
      DumpLinesAppend(order, k);
      EnumeratesExtend(order, done, k);
      order := order + [k];
      remaining := remaining - {k};
      done := done + {k};
    }
    assert done == keys;
  }

  class TokenManager {
    var sdkTokens: map<Key, Token>
    var reverseSdkTokens: map<Token, Key>
    /** The next token `new Binder()` hands out. */
    var nextToken: nat

    ghost function Model(): Registry
      reads this
    {
      Registry(sdkTokens, reverseSdkTokens, nextToken)
    }

    ghost predicate Valid()
      reads this
    {
      RegistryValid(Model())
    }

    constructor ()
      ensures Valid() && Model() == EmptyRegistry()
    {
      sdkTokens, reverseSdkTokens, nextToken := map[], map[], 0;
    }

    method CreateOrGetSdkToken(callingUid: int, name: string) returns (token: Token)
      requires Valid()
      modifies this
      ensures Valid()
      ensures (Model(), token) == CreateOrGet(old(Model()), Key(callingUid, name))
    {
      var key := Key(callingUid, name);
      if key in sdkTokens {
        return sdkTokens[key];
      }
      token := nextToken;
      nextToken := nextToken + 1;
      sdkTokens := sdkTokens[key := token];
      reverseSdkTokens := reverseSdkTokens[token := key];
      CreateOrGetProperties(old(Model()), key);
    }

    method Destroy(token: Token)
      requires Valid()
      modifies this
      ensures Valid()
      ensures Model() == Destroyed(old(Model()), token)
    {
      if token in reverseSdkTokens {
        sdkTokens := sdkTokens - {reverseSdkTokens[token]};
      }
      reverseSdkTokens := reverseSdkTokens - {token};
      DestroyProperties(old(Model()), token);
    }

    /** The registry's part of the service dump: a header line, then one line per
        key in map order (`order`).  `mapName` is the field name the revision
        prints (`mSdkTokens` or `mCodeTokens`). */
    method Dump(mapName: string) returns (lines: seq<string>, ghost order: seq<Key>)
      ensures sdkTokens != map[] ==> Enumerates(order, sdkTokens.Keys)
      ensures lines == RegistryDump(mapName, sdkTokens, order)
    {
      order := [];
      if sdkTokens == map[] {
        return [mapName + " is empty"], order;
      }
      var header := mapName + " size: " + IntToString(|sdkTokens|);
      var body;
      body, order := DumpKeys(sdkTokens.Keys);
      lines := [header] + body;
    }
  }
}
