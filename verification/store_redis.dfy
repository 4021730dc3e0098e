/**
 * banditStore.redis.js: bandit states kept as JSON text in a key-value
 * client under `${prefix}${context}:${provider}`. The client is a map from
 * key to text; `JSON.stringify` and `JSON.parse` are the abstract functions
 * `stringify` and `parse` (None where parsing throws).
 */
module RedisStore {
  import opened Wrappers
  import opened Js

  /** The default key prefix. */
  const DefaultPrefix: string := "bandit:"

  /** `context = "default"`, then `String(context)`. */
  function ContextText(context: JsValue): string {
    if context == Undefined then "default" else ToStr(context)
  }

  /** `_key(provider, context)` = `${prefix}${context}:${provider}`. */
  function RedisKey(prefix: string, provider: JsValue, context: JsValue): (k: string)
    ensures prefix <= k
    ensures k[|prefix|..] == ContextText(context) + ":" + ToStr(provider)
  {
    prefix + ContextText(context) + ":" + ToStr(provider)
  }

  /** A stored text `load` and `loadAll` accept: non-empty and parseable. */
  predicate Readable<S>(raw: string, parse: string -> Option<S>) {
    raw != "" && parse(raw).Some?
  }

  /** The key `loadAll` reports for a scanned key: the key without the prefix,
      that is `${context}:${provider}` for a key built by `_key`. */
  function ScannedKey(prefix: string, k: string): (r: string)
    requires prefix <= k
    ensures prefix + r == k
  {
    k[|prefix|..]
  }

  /** The key `loadAll` reports as the source computes it: pieces 1 and 2 of
      `k.split(":")`, each "undefined" when missing. */
  function ScannedKeyAsWritten(k: string): (r: string)
    ensures ':' in r
    ensures ':' !in k ==> r == "undefined:undefined"
  {
    var parts := Split(k, ':');
    if ':' !in k then SplitWithoutSeparator(k, ':'); assert parts == [k]; Piece(parts, 1) + ":" + Piece(parts, 2)
    else Piece(parts, 1) + ":" + Piece(parts, 2)
  }

  /** `${parts[i]}`: "undefined" past the end. */
  function Piece(parts: seq<string>, i: nat): string {
    if i < |parts| then parts[i] else "undefined"
  }

  class RedisBanditStore<S> {
    /** The client's contents. */
    var data: map<string, string>
    const prefix: string
    const stringify: S -> string
    const parse: string -> Option<S>

    /** `new RedisBanditStore(client, {prefix})`: the prefix is
        `options.prefix || "bandit:"`. */
    constructor(client: map<string, string>, prefixOption: JsValue, stringify: S -> string, parse: string -> Option<S>)
      ensures data == client && this.stringify == stringify && this.parse == parse
      ensures Truthy(prefixOption) ==> prefix == ToStr(prefixOption)
      ensures !Truthy(prefixOption) ==> prefix == DefaultPrefix
    {
      data := client;
      prefix := ToStr(Or(prefixOption, Str(DefaultPrefix)));
      this.stringify := stringify;
      this.parse := parse;
    }

    /** `load(provider, context)`: null for a missing or empty value and for
        one that fails to parse, otherwise the parsed state. */
    method Load(provider: JsValue, context: JsValue) returns (r: Option<S>)
      ensures var k := RedisKey(prefix, provider, context);
        && (k !in data ==> r.None?)
        && (k in data && !Readable(data[k], parse) ==> r.None?)
        && (k in data && Readable(data[k], parse) ==> r == parse(data[k]))
    {
      var k := RedisKey(prefix, provider, context);
      if k !in data || data[k] == "" {
        return None;
      }
      r := parse(data[k]);
    }

    /** `save(provider, context, state)`: overwrites the single key with the
        JSON text. */
    method Save(provider: JsValue, context: JsValue, state: S)
      modifies this
      ensures data == old(data)[RedisKey(prefix, provider, context) := stringify(state)]
    {
      data := data[RedisKey(prefix, provider, context) := stringify(state)];
    }

    /** `loadAll()`: every readable value under the prefix, reported under its
        key without the prefix; empty and unparseable values are skipped. The
        keys are visited in no particular order. */
    method LoadAll() returns (out: map<string, S>)
      ensures forall x :: x in out <==> prefix + x in data && Readable(data[prefix + x], parse)
      ensures forall x :: x in out ==> Some(out[x]) == parse(data[prefix + x])
    {
      out := map[];
      var pending := set k | k in data && prefix <= k;
      ghost var visited: set<string> := {};
      while pending != {}
        invariant pending !! visited
        invariant forall k :: k in data && prefix <= k ==> k in pending || k in visited
        invariant forall k :: k in pending || k in visited ==> k in data && prefix <= k
        invariant forall x :: x in out <==> prefix + x in visited && Readable(data[prefix + x], parse)
        invariant forall x :: x in out ==> Some(out[x]) == parse(data[prefix + x])
        decreases pending
      {
        var k :| k in pending;
        var raw := data[k];
        var x := ScannedKey(prefix, k);
        if raw != "" {
          var parsed := parse(raw);
          if parsed.Some? {
            out := out[x := parsed.value];
          }
        }
        pending := pending - {k};
        visited := visited + {k};
      }
    }
  }

  /** A saved state whose JSON text is non-empty and parses back to it appears
      in `loadAll` under `${context}:${provider}`, whatever the prefix. */
  lemma SavedEntryIsListed<S>(data: map<string, string>, prefix: string, provider: JsValue, context: JsValue,
                              state: S, stringify: S -> string, parse: string -> Option<S>)
    requires stringify(state) != "" && parse(stringify(state)) == Some(state)
    ensures var d := data[RedisKey(prefix, provider, context) := stringify(state)];
      var x := ContextText(context) + ":" + ToStr(provider);
      && prefix + x in d && Readable(d[prefix + x], parse) && parse(d[prefix + x]).value == state
  {
    assert prefix + (ContextText(context) + ":" + ToStr(provider)) == RedisKey(prefix, provider, context);
  }

  /** Splitting `a:b:c` with colon-free pieces reports "b:c". */
  lemma {:induction false} AsWrittenThreePieces(a: string, b: string, c: string)
    requires ':' !in a && ':' !in b && ':' !in c
    ensures ScannedKeyAsWritten(a + [':'] + (b + [':'] + c)) == b + ":" + c
  {
    SplitAfterFirst(a, ':', b + [':'] + c);
    SplitAfterFirst(b, ':', c);
    SplitWithoutSeparator(c, ':');
  }

  /** Splitting `a:b:c:rest` with colon-free a, b and c reports "b:c",
      whatever follows. */
  lemma {:induction false} AsWrittenFourPieces(a: string, b: string, c: string, rest: string)
    requires ':' !in a && ':' !in b && ':' !in c
    ensures ScannedKeyAsWritten(a + [':'] + (b + [':'] + (c + [':'] + rest))) == b + ":" + c
  {
    SplitAfterFirst(a, ':', b + [':'] + (c + [':'] + rest));
    SplitAfterFirst(b, ':', c + [':'] + rest);
    SplitAfterFirst(c, ':', rest);
  }

  /** With the default prefix and a colon-free context and provider, the key
      computed by splitting is the intended `${context}:${provider}`. */
  lemma AsWrittenDefaultPrefix(provider: JsValue, context: JsValue)
    requires ':' !in ContextText(context) && ':' !in ToStr(provider)
    ensures ScannedKeyAsWritten(RedisKey(DefaultPrefix, provider, context)) == ContextText(context) + ":" + ToStr(provider)
  {
    var c, p := ContextText(context), ToStr(provider);
    assert RedisKey(DefaultPrefix, provider, context) == "bandit" + [':'] + (c + [':'] + p);
    AsWrittenThreePieces("bandit", c, p);
  }

  /** With the prefix "app:bandit:" the split key is "bandit:default" for
      every provider in the default context, not "default:<provider>". */
  lemma AsWrittenLongPrefix(provider: string)
    ensures ScannedKeyAsWritten(RedisKey("app:bandit:", Str(provider), Undefined)) == "bandit:default"
    ensures ScannedKey("app:bandit:", RedisKey("app:bandit:", Str(provider), Undefined)) == "default:" + provider
  {
    assert "bandit" + ":" + "default" == "bandit:default";
    LongPrefixKey(provider);
    AsWrittenFourPieces("app", "bandit", "default", provider);
  }

  /** The key of a provider in the default context under the prefix "app:bandit:". */
  lemma LongPrefixKey(provider: string)
    ensures RedisKey("app:bandit:", Str(provider), Undefined) == "app" + [':'] + ("bandit" + [':'] + ("default" + [':'] + provider))
    ensures RedisKey("app:bandit:", Str(provider), Undefined) == "app:bandit:" + ("default:" + provider)
  {
    assert "app:bandit:" == "app" + [':'] + ("bandit" + [':']);
    KeyPieces("app" + [':'] + ("bandit" + [':']), Str(provider), Undefined);
  }

  /** A colon in the provider name is cut off by the split: every provider
      "<family>:<model>" in the default context, such as "openai:gpt-4o" and
      "openai:o1", is reported as "default:<family>", so their entries
      overwrite one another in the result. */
  lemma AsWrittenColonInProvider(family: string, model: string)
    requires ':' !in family
    ensures ScannedKeyAsWritten(RedisKey(DefaultPrefix, Str(family + [':'] + model), Undefined)) == "default:" + family
  {
    assert "default" + ":" + family == "default:" + family;
    ColonProviderKey(family, model);
    AsWrittenFourPieces("bandit", "default", family, model);
  }

  /** The key of a provider "<family>:<model>" in the default context under the
      default prefix. */
  lemma ColonProviderKey(family: string, model: string)
    ensures RedisKey(DefaultPrefix, Str(family + [':'] + model), Undefined)
         == "bandit" + [':'] + ("default" + [':'] + (family + [':'] + model))
  {
    assert DefaultPrefix == "bandit" + [':'];
    KeyPieces("bandit" + [':'], Str(family + [':'] + model), Undefined);
  }

  /** A key is its prefix, then the context text, a colon and the provider text. */
  lemma KeyPieces(prefix: string, provider: JsValue, context: JsValue)
    ensures RedisKey(prefix, provider, context) == prefix + (ContextText(context) + [':'] + ToStr(provider))
  {
  }

  /** The corrected scan inverts `_key` for every prefix, context and
      provider, so distinct saved pairs are listed under distinct keys. */
  lemma ScannedKeyInvertsKey(prefix: string, p1: JsValue, c1: JsValue, p2: JsValue, c2: JsValue)
    ensures ScannedKey(prefix, RedisKey(prefix, p1, c1)) == ContextText(c1) + ":" + ToStr(p1)
    ensures RedisKey(prefix, p1, c1) != RedisKey(prefix, p2, c2) ==>
      ScannedKey(prefix, RedisKey(prefix, p1, c1)) != ScannedKey(prefix, RedisKey(prefix, p2, c2))
  {
  }
}
