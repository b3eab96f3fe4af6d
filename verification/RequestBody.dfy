/**
 The request rewrite as it is done: the parsed body is a dict that is updated entry by entry, and
 lists inside it block by block.
 */
module RequestBody {
  import opened Options
  import opened CacheRewrite

  /** A parsed dict holds each key once. */
  predicate DistinctKeys(fields: seq<Field>) {
    forall i, j | 0 <= i < j < |fields| :: fields[i].key != fields[j].key
  }

  /** Replacing the value of a key, everywhere it occurs. */
  function Replaced(fields: seq<Field>, key: string, value: Json): (after: seq<Field>)
    ensures |after| == |fields|
    ensures forall i | 0 <= i < |fields| ::
      after[i] == if fields[i].key == key then Field(key, value) else fields[i]
  {
    seq(|fields|, i requires 0 <= i < |fields| => if fields[i].key == key then Field(key, value) else fields[i])
  }

  lemma {:induction false} PutReplaces(fields: seq<Field>, key: string, value: Json)
    requires DistinctKeys(fields) && Get(fields, key).Some?
    ensures Put(fields, key, value) == Replaced(fields, key, value)
  {
    var first, rest := fields[0], fields[1..];
    assert fields == [first] + rest;
    if first.key == key {
      assert Replaced(fields, key, value) == [Field(key, value)] + rest;
    } else {
      assert DistinctKeys(rest) && Get(rest, key).Some?;
      PutReplaces(rest, key, value);
      hide DistinctKeys, Get;
      assert Replaced(fields, key, value) == [first] + Replaced(rest, key, value);
    }
  }

  lemma ReplacedIsDistinct(fields: seq<Field>, key: string, value: Json)
    requires DistinctKeys(fields)
    ensures DistinctKeys(Replaced(fields, key, value))
  {
  }

  lemma {:induction false} GetAt(fields: seq<Field>, key: string)
    requires DistinctKeys(fields)
    ensures Get(fields, key).None? ==> forall i | 0 <= i < |fields| :: fields[i].key != key
    ensures forall i | 0 <= i < |fields| && fields[i].key == key :: Get(fields, key) == Some(fields[i].value)
  {
    if fields != [] {
      GetAt(fields[1..], key);
      assert forall i | 1 <= i < |fields| :: fields[i] == fields[1..][i - 1];
    }
  }

  lemma {:induction false} RewriteAt(fields: seq<Field>)
    ensures |RewriteFields(fields)| == |fields|
    ensures forall i | 0 <= i < |fields| ::
      RewriteFields(fields)[i] == Field(fields[i].key, RewriteValue(fields[i].key, fields[i].value))
  {
    hide RewriteValue;
    if fields != [] { RewriteAt(fields[1..]); }
  }

  /** Replacing one entry by its rewriting, when it has one. */
  function RewrittenAt(fields: seq<Field>, key: string): seq<Field> {
    var entry := Get(fields, key);
    if entry.Some? then Put(fields, key, RewriteValue(key, entry.value)) else fields
  }

  lemma RewrittenOnce(fields: seq<Field>, key: string)
    requires DistinctKeys(fields)
    ensures var after := RewrittenAt(fields, key);
      && |after| == |fields| && DistinctKeys(after)
      && forall i | 0 <= i < |fields| ::
           after[i] == if fields[i].key == key then Field(key, RewriteValue(key, fields[i].value)) else fields[i]
  {
    hide RewriteValue, Get, Put;
    GetAt(fields, key);
    var entry := Get(fields, key);
    if entry.Some? {
      PutReplaces(fields, key, RewriteValue(key, entry.value));
      ReplacedIsDistinct(fields, key, RewriteValue(key, entry.value));
    }
  }

  /** The three entries one after the other are the rewriting of all of them. */
  lemma EntriesInTurn(fields: seq<Field>)
    requires DistinctKeys(fields)
    ensures RewrittenAt(RewrittenAt(RewrittenAt(fields, "system"), "tools"), "messages") == RewriteFields(fields)
  {
    hide RewrittenAt, RewriteFields, RewriteValue;
    var one := RewrittenAt(fields, "system");
    var two := RewrittenAt(one, "tools");
    RewrittenOnce(fields, "system");
    RewrittenOnce(one, "tools");
    RewrittenOnce(two, "messages");
    RewriteAt(fields);
    forall i | 0 <= i < |fields|
      ensures RewrittenAt(two, "messages")[i] == RewriteFields(fields)[i]
    {
      OtherKeysStay(fields[i].key, fields[i].value);
    }
  }

  lemma OtherKeysStay(key: string, value: Json)
    ensures key != "system" && key != "tools" && key != "messages" ==> RewriteValue(key, value) == value
  {
  }

  lemma {:induction false} PinBlocksAt(blocks: seq<Json>)
    ensures forall i | 0 <= i < |blocks| :: PinBlocks(blocks)[i] == PinBlock(blocks[i])
  {
    hide PinBlock;
    if blocks != [] { PinBlocksAt(blocks[1..]); }
  }

  lemma {:induction false} StripItemsAt(items: seq<Json>)
    ensures forall i | 0 <= i < |items| :: StripItems(items)[i] == Strip(items[i])
  {
    hide Strip;
    if items != [] { StripItemsAt(items[1..]); }
  }

  class ParsedBody {
    var fields: seq<Field>

    constructor (fields: seq<Field>)
      ensures this.fields == fields
    {
      this.fields := fields;
    }

    /** `_neutralize_cch`, block by block. */
    static method NeutralizeCch(system: seq<Json>) returns (pinned: seq<Json>)
      ensures pinned == PinBlocks(system)
    {
      hide PinBlock, PinBlocks;
      pinned := system;
      PinBlocksAt(system);
      for i := 0 to |system|
        invariant |pinned| == |system|
        invariant forall k | 0 <= k < |system| :: pinned[k] == if k < i then PinBlock(system[k]) else system[k]
      {
        pinned := pinned[i := PinBlock(pinned[i])];
      }
    }

    static method StripEach(items: seq<Json>) returns (stripped: seq<Json>)
      ensures stripped == StripItems(items)
    {
      hide Strip, StripItems;
      stripped := items;
      StripItemsAt(items);
      for i := 0 to |items|
        invariant |stripped| == |items|
        invariant forall k | 0 <= k < |items| :: stripped[k] == if k < i then Strip(items[k]) else items[k]
      {
        stripped := stripped[i := Strip(stripped[i])];
      }
    }

    /** The source strips the tools and messages before it strips the system blocks; a parsed body
        shares nothing between them. */
    method RewriteSystemEntry()
      requires Get(fields, "system").Some? && Get(fields, "system").value.Arr? && Get(fields, "system").value.items != []
      modifies this
      ensures fields == RewrittenAt(old(fields), "system")
    {
      var blocks := Get(fields, "system").value.items;
      var pinned := NeutralizeCch(blocks);
      var stripped := StripEach(pinned);
      var n := |stripped| - 1;
      ghost var bare := stripped;
      if stripped[n].Obj? {
        stripped := stripped[n := Obj(Put(stripped[n].fields, CACHE_CONTROL, MARKER))];
        assert stripped == bare[..n] + [stripped[n]];
      }
      assert stripped == RewriteSystem(blocks);
      fields := Put(fields, "system", Arr(stripped));
    }

    method RewriteToolsEntry()
      modifies this
      ensures fields == RewrittenAt(old(fields), "tools")
      ensures Get(old(fields), "tools").Some? && !Get(old(fields), "tools").value.Arr? ==> fields == old(fields)
    {
      var tools := Get(fields, "tools");
      if tools.Some? && tools.value.Arr? {
        var stripped := StripEach(tools.value.items);
        fields := Put(fields, "tools", Arr(stripped));
      } else if tools.Some? {
        PutAgain(fields, "tools", tools.value);
      }
    }

    method RewriteMessagesEntry()
      modifies this
      ensures fields == RewrittenAt(old(fields), "messages")
    {
      var messages := Get(fields, "messages");
      if messages.Some? {
        fields := Put(fields, "messages", Strip(messages.value));
      }
    }

    /** Pinning the billing tokens comes first, so it has happened even when the loop over `tools` raises. */
    method PinSystemEntry()
      requires Get(fields, "system").Some? && Get(fields, "system").value.Arr?
      modifies this
      ensures fields == Put(old(fields), "system", Arr(PinBlocks(Get(old(fields), "system").value.items)))
    {
      var pinned := NeutralizeCch(Get(fields, "system").value.items);
      fields := Put(fields, "system", Arr(pinned));
    }

    /** `transform_request`; a `tools` entry that cannot be looped over raises. */
    method Transform(provider: Option<string>, sessionId: string) returns (raised: bool)
      requires DistinctKeys(fields)
      modifies this
      ensures TransformRequest(old(fields), provider, sessionId) == if raised then TypeError else Body(fields)
      ensures raised ==>
        var system := Get(old(fields), "system");
        system.Some? && system.value.Arr? && fields == Put(old(fields), "system", Arr(PinBlocks(system.value.items)))
    {
      hide RewrittenAt, RewriteFields;
      if !Rewrites(fields, provider) {
        return false;
      }
      if !Iterable(Get(fields, "tools")) {
        PinSystemEntry();
        return true;
      }
      EntriesInTurn(fields);
      RewriteSystemEntry();
      RewriteToolsEntry();
      RewriteMessagesEntry();
      fields := Put(fields, "provider", ProviderPin(provider.value));
      fields := Put(fields, "session_id", Str(sessionId));
      raised := false;
    }
  }
}
