/**
 * The mobile client's key-value store (AsyncStorage) and the token helpers
 * over it (mobile/lib/auth/storage.ts). Each token type lives under the key
 * "token_" followed by the type's name; the user attributes live under
 * "user_attributes".
 */
module TokenStorage {
  import opened Wrappers
  import opened AuthUtils

  /**
   * The members of `TokenType`. Their string values are declared in a file
   * that is not part of this model; the names below stand for any three
   * distinct names.
   */
  datatype TokenType = Access | Id | Refresh

  const AllTokenTypes: seq<TokenType> := [Access, Id, Refresh]

  function TypeName(t: TokenType): string
  {
    match t
    case Access => "access"
    case Id => "id"
    case Refresh => "refresh"
  }

  /** `token_${type}`. */
  function TokenKey(t: TokenType): (k: string)
    ensures |k| > 6 && k[..6] == "token_"
  {
    "token_" + TypeName(t)
  }

  lemma TokenKeyInjective(a: TokenType, b: TokenType)
    requires TokenKey(a) == TokenKey(b)
    ensures a == b
  {
    assert TokenKey(a)[6..] == TypeName(a);
    assert TokenKey(b)[6..] == TypeName(b);
  }

  const UserAttributesKey: string := "user_attributes"

  /** The keys `clearTokens` removes: one per token type. */
  const TokenKeys: set<string> := {TokenKey(Access), TokenKey(Id), TokenKey(Refresh)}

  lemma UserAttributesIsNoTokenKey()
    ensures forall t :: TokenKey(t) != UserAttributesKey
    ensures UserAttributesKey !in TokenKeys
  {
    forall t ensures TokenKey(t) != UserAttributesKey {
      assert TokenKey(t)[0] == TokenKey(t)[..6][0] == 't';
      assert UserAttributesKey[0] == 'u';
    }
  }

  /**
   * A stored value: a text, or the attribute record that `JSON.stringify`
   * wrote (the string encoding is not modelled; a record reads back as itself).
   */
  datatype Item = Text(text: string) | Record(attrs: Attributes)

  type Items = map<string, Item>

  /** Tokens are stored as text and the attributes as a record. */
  predicate Valid(items: Items)
  {
    (forall t :: TokenKey(t) in items ==> items[TokenKey(t)].Text?) &&
    (UserAttributesKey in items ==> items[UserAttributesKey].Record?)
  }

  /** The device's AsyncStorage. */
  class AsyncStorage {
    var items: Items

    constructor ()
      ensures items == map[]
    {
      items := map[];
    }

    method SetItem(key: string, value: Item)
      modifies this
      ensures items == old(items)[key := value]
    {
      items := items[key := value];
    }

    method RemoveItem(key: string)
      modifies this
      ensures items == old(items) - {key}
    {
      items := items - {key};
    }

    method MultiRemove(keys: seq<string>)
      modifies this
      ensures items == old(items) - (set k | k in keys)
    {
      items := items - (set k | k in keys);
    }
  }

  // ---------------------------------------------------------------------------
  // The token operations on the stored items

  /** `getToken(type)`: the text under the type's key, or null. */
  function Token(items: Items, t: TokenType): (r: Option<string>)
    ensures r.Some? <==> TokenKey(t) in items && items[TokenKey(t)].Text?
    ensures r.Some? ==> items[TokenKey(t)] == Text(r.value)
  {
    if TokenKey(t) in items && items[TokenKey(t)].Text? then Some(items[TokenKey(t)].text) else None
  }

  function WithToken(items: Items, t: TokenType, token: string): Items
  {
    items[TokenKey(t) := Text(token)]
  }

  function WithoutToken(items: Items, t: TokenType): Items
  {
    items - {TokenKey(t)}
  }

  function WithoutTokens(items: Items): Items
  {
    items - TokenKeys
  }

  /** A token reads back as written. */
  lemma GetAfterSet(items: Items, t: TokenType, token: string)
    ensures Token(WithToken(items, t, token), t) == Some(token)
  {
  }

  /** Setting one token leaves every other key, and so every other token, as it was. */
  lemma SetLeavesOthers(items: Items, t: TokenType, token: string)
    ensures forall k :: k != TokenKey(t) ==>
      (k in WithToken(items, t, token) <==> k in items) &&
      (k in items ==> WithToken(items, t, token)[k] == items[k])
    ensures forall u :: u != t ==> Token(WithToken(items, t, token), u) == Token(items, u)
  {
    forall u | u != t ensures Token(WithToken(items, t, token), u) == Token(items, u) {
      if TokenKey(u) == TokenKey(t) { TokenKeyInjective(u, t); }
    }
  }

  /** After `removeToken(type)` that token reads as null; the other keys are kept. */
  lemma GetAfterRemove(items: Items, t: TokenType)
    ensures Token(WithoutToken(items, t), t) == None
    ensures forall k :: k != TokenKey(t) ==>
      (k in WithoutToken(items, t) <==> k in items) &&
      (k in items ==> WithoutToken(items, t)[k] == items[k])
    ensures forall u :: u != t ==> Token(WithoutToken(items, t), u) == Token(items, u)
  {
    forall u | u != t ensures Token(WithoutToken(items, t), u) == Token(items, u) {
      if TokenKey(u) == TokenKey(t) { TokenKeyInjective(u, t); }
    }
  }

  /** `clearTokens` removes every token key and nothing else; the attributes stay. */
  lemma ClearRemovesOnlyTokens(items: Items)
    ensures forall t :: Token(WithoutTokens(items), t) == None
    ensures forall k :: k !in TokenKeys ==>
      (k in WithoutTokens(items) <==> k in items) &&
      (k in items ==> WithoutTokens(items)[k] == items[k])
    ensures UserAttributesKey in items ==>
      UserAttributesKey in WithoutTokens(items) && WithoutTokens(items)[UserAttributesKey] == items[UserAttributesKey]
  {
    UserAttributesIsNoTokenKey();
    forall t ensures Token(WithoutTokens(items), t) == None {
      assert TokenKey(t) in TokenKeys by { match t case Access => {} case Id => {} case Refresh => {} }
    }
  }

  lemma ClearIdempotent(items: Items)
    ensures WithoutTokens(WithoutTokens(items)) == WithoutTokens(items)
  {
  }

  lemma TokenOperationsKeepValid(items: Items, t: TokenType, token: string)
    requires Valid(items)
    ensures Valid(WithToken(items, t, token))
    ensures Valid(WithoutToken(items, t))
    ensures Valid(WithoutTokens(items))
  {
    UserAttributesIsNoTokenKey();
  }

  // ---------------------------------------------------------------------------
  // The `TokenStorage` static methods

  method SetToken(store: AsyncStorage, t: TokenType, token: string)
    modifies store
    ensures store.items == WithToken(old(store.items), t, token)
  {
    store.SetItem(TokenKey(t), Text(token));
  }

  method GetToken(store: AsyncStorage, t: TokenType) returns (r: Option<string>)
    ensures r == Token(store.items, t)
  {
    var key := TokenKey(t);
    if key in store.items && store.items[key].Text? {
      r := Some(store.items[key].text);
    } else {
      r := None;
    }
  }

  method RemoveToken(store: AsyncStorage, t: TokenType)
    modifies store
    ensures store.items == WithoutToken(old(store.items), t)
  {
    store.RemoveItem(TokenKey(t));
  }

  /** The keys are built from every member of `TokenType`, then removed together. */
  method ClearTokens(store: AsyncStorage)
    modifies store
    ensures store.items == WithoutTokens(old(store.items))
  {
    var keys := seq(|AllTokenTypes|, i requires 0 <= i < |AllTokenTypes| => TokenKey(AllTokenTypes[i]));
    assert (set k | k in keys) == TokenKeys by {
      assert keys == [TokenKey(Access), TokenKey(Id), TokenKey(Refresh)];
    }
    store.MultiRemove(keys);
  }
}
