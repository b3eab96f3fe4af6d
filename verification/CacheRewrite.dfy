/**
 The OpenRouter cache proxy's rewrite of a request body: pin the billing token, strip every
 cache breakpoint, and place one on the last system block. The theorems: the rewrite is
 idempotent, it identifies bodies that differ only in what it pins or strips, and it leaves
 exactly one breakpoint in the trees it owns.

 Objects keep their fields in order, as Python dicts do, so equal results are equal byte streams.
 */
module CacheRewrite {
  import opened Options

  datatype Field = Field(key: string, value: Json)

  datatype Json =
    | Null | Bool(b: bool) | Num(literal: string) | Str(s: string)
    | Arr(items: seq<Json>)
    | Obj(fields: seq<Field>)

  const CACHE_CONTROL := "cache_control"
  const BILLING_HEADER := "x-anthropic-billing-header"
  const STABLE := "cch=stable;"

  // ---------------------------------------------------------------- stripping

  function Strip(j: Json): Json {
    match j
    case Arr(items) => Arr(StripItems(items))
    case Obj(fields) => Obj(StripFields(fields))
    case _ => j
  }

  function StripItems(items: seq<Json>): (stripped: seq<Json>)
    ensures |stripped| == |items|
  {
    if items == [] then [] else [Strip(items[0])] + StripItems(items[1..])
  }

  function StripFields(fields: seq<Field>): seq<Field> {
    if fields == [] then []
    else if fields[0].key == CACHE_CONTROL then StripFields(fields[1..])
    else [Field(fields[0].key, Strip(fields[0].value))] + StripFields(fields[1..])
  }

  /** How many breakpoints a tree carries. */
  function Breakpoints(j: Json): nat {
    match j
    case Arr(items) => ItemBreakpoints(items)
    case Obj(fields) => FieldBreakpoints(fields)
    case _ => 0
  }

  function ItemBreakpoints(items: seq<Json>): nat {
    if items == [] then 0 else Breakpoints(items[0]) + ItemBreakpoints(items[1..])
  }

  function FieldBreakpoints(fields: seq<Field>): nat {
    if fields == [] then 0
    else (if fields[0].key == CACHE_CONTROL then 1 else 0) + Breakpoints(fields[0].value) + FieldBreakpoints(fields[1..])
  }

  lemma {:induction false} StripRemovesAll(j: Json)
    ensures Breakpoints(Strip(j)) == 0
  {
    match j
    case Arr(items) => StripItemsRemovesAll(items);
    case Obj(fields) => StripFieldsRemovesAll(fields);
    case _ =>
  }

  lemma {:induction false} StripItemsRemovesAll(items: seq<Json>)
    ensures ItemBreakpoints(StripItems(items)) == 0
  {
    if items != [] {
      StripRemovesAll(items[0]);
      StripItemsRemovesAll(items[1..]);
    }
  }

  lemma {:induction false} StripFieldsRemovesAll(fields: seq<Field>)
    ensures FieldBreakpoints(StripFields(fields)) == 0
  {
    if fields != [] {
      StripRemovesAll(fields[0].value);
      StripFieldsRemovesAll(fields[1..]);
    }
  }

  lemma {:induction false} StripKeepsTheRest(j: Json)
    requires Breakpoints(j) == 0
    ensures Strip(j) == j
  {
    match j
    case Arr(items) => StripItemsKeepsTheRest(items);
    case Obj(fields) => StripFieldsKeepsTheRest(fields);
    case _ =>
  }

  lemma {:induction false} StripItemsKeepsTheRest(items: seq<Json>)
    requires ItemBreakpoints(items) == 0
    ensures StripItems(items) == items
  {
    if items != [] {
      StripKeepsTheRest(items[0]);
      StripItemsKeepsTheRest(items[1..]);
    }
  }

  lemma {:induction false} StripFieldsKeepsTheRest(fields: seq<Field>)
    requires FieldBreakpoints(fields) == 0
    ensures StripFields(fields) == fields
  {
    if fields != [] {
      StripKeepsTheRest(fields[0].value);
      StripFieldsKeepsTheRest(fields[1..]);
    }
  }

  // ---------------------------------------------------------------- equal but for breakpoints

  /** The same tree, breakpoints aside, compared field by field. */
  predicate Alike(a: Json, b: Json)
    decreases a, b
  {
    match (a, b)
    case (Arr(xs), Arr(ys)) => ItemsAlike(xs, ys)
    case (Obj(f), Obj(g)) => FieldsAlike(f, g)
    case _ => a == b
  }

  predicate ItemsAlike(xs: seq<Json>, ys: seq<Json>)
    decreases xs, ys
  {
    if xs == [] || ys == [] then xs == ys
    else Alike(xs[0], ys[0]) && ItemsAlike(xs[1..], ys[1..])
  }

  predicate FieldsAlike(f: seq<Field>, g: seq<Field>)
    decreases f, g
  {
    if f != [] && f[0].key == CACHE_CONTROL then FieldsAlike(f[1..], g)
    else if g != [] && g[0].key == CACHE_CONTROL then FieldsAlike(f, g[1..])
    else if f == [] || g == [] then f == g
    else f[0].key == g[0].key && Alike(f[0].value, g[0].value) && FieldsAlike(f[1..], g[1..])
  }

  /** Stripping identifies exactly the trees that are alike. */
  lemma {:induction false} StripIdentifiesAlike(a: Json, b: Json)
    ensures Strip(a) == Strip(b) <==> Alike(a, b)
    decreases a, b
  {
    match (a, b)
    case (Arr(xs), Arr(ys)) => StripIdentifiesItems(xs, ys);
    case (Obj(f), Obj(g)) => StripIdentifiesFields(f, g);
    case _ =>
  }

  lemma {:induction false} StripIdentifiesItems(xs: seq<Json>, ys: seq<Json>)
    ensures StripItems(xs) == StripItems(ys) <==> ItemsAlike(xs, ys)
    decreases xs, ys
  {
    if xs != [] && ys != [] {
      StripIdentifiesAlike(xs[0], ys[0]);
      StripIdentifiesItems(xs[1..], ys[1..]);
      ConsEqual(Strip(xs[0]), StripItems(xs[1..]), Strip(ys[0]), StripItems(ys[1..]));
    }
  }

  lemma ConsEqual<T>(x: T, xs: seq<T>, y: T, ys: seq<T>)
    ensures [x] + xs == [y] + ys <==> x == y && xs == ys
  {
    assert ([x] + xs)[0] == x && ([x] + xs)[1..] == xs;
    assert ([y] + ys)[0] == y && ([y] + ys)[1..] == ys;
  }

  lemma {:induction false} StripIdentifiesFields(f: seq<Field>, g: seq<Field>)
    ensures StripFields(f) == StripFields(g) <==> FieldsAlike(f, g)
    decreases f, g
  {
    if f != [] && f[0].key == CACHE_CONTROL {
      StripIdentifiesFields(f[1..], g);
    } else if g != [] && g[0].key == CACHE_CONTROL {
      StripIdentifiesFields(f, g[1..]);
    } else if f != [] && g != [] {
      StripIdentifiesAlike(f[0].value, g[0].value);
      StripIdentifiesFields(f[1..], g[1..]);
      ConsEqual(Field(f[0].key, Strip(f[0].value)), StripFields(f[1..]), Field(g[0].key, Strip(g[0].value)), StripFields(g[1..]));
    }
  }

  // ---------------------------------------------------------------- the billing token

  /** `cch=[^;]*;` matches at the front of `t`. */
  predicate HasToken(t: string) {
    "cch=" <= t && ';' in t
  }

  function AfterSemicolon(t: string): (rest: string)
    requires ';' in t
    ensures |rest| < |t|
  {
    if t[0] == ';' then t[1..] else AfterSemicolon(t[1..])
  }

  /** `re.sub(r"cch=[^;]*;", "cch=stable;", t)`: leftmost matches, none overlapping. */
  function PinToken(t: string): string
    decreases |t|
  {
    if t == [] then []
    else if HasToken(t) then STABLE + PinToken(AfterSemicolon(t))
    else [t[0]] + PinToken(t[1..])
  }

  /** The same text, token values aside. */
  predicate TokensAside(a: string, b: string)
    decreases |a|
  {
    if HasToken(a) && HasToken(b) then TokensAside(AfterSemicolon(a), AfterSemicolon(b))
    else if HasToken(a) || HasToken(b) || a == [] || b == [] then a == b == []
    else a[0] == b[0] && TokensAside(a[1..], b[1..])
  }

  function Front(t: string, n: nat): string {
    if |t| <= n then t else t[..n]
  }

  lemma {:induction false} PinKeepsSemicolons(t: string)
    ensures ';' in PinToken(t) <==> ';' in t
    decreases |t|
  {
    if HasToken(t) {
      assert STABLE[10] == ';' && PinToken(t)[10] == ';';
    } else if t != [] {
      PinKeepsSemicolons(t[1..]);
    }
  }

  lemma {:induction false} PinKeepsFront(t: string, n: nat)
    requires n <= 4
    ensures Front(PinToken(t), n) == Front(t, n)
    decreases |t|
  {
    if HasToken(t) {
      assert Front(STABLE, n) == Front("cch=", n) == Front(t, n);
    } else if t != [] && n != 0 {
      PinKeepsFront(t[1..], n - 1);
      FrontCons(t[0], t[1..], n);
      FrontCons(t[0], PinToken(t[1..]), n);
      assert t == [t[0]] + t[1..];
    }
  }

  lemma FrontCons(c: char, t: string, n: nat)
    requires n >= 1
    ensures Front([c] + t, n) == [c] + Front(t, n - 1)
  {
  }

  /** What the substitution leaves where there is no token is not the start of one either. */
  lemma PinMakesNoToken(t: string)
    requires t != [] && !HasToken(t)
    ensures !HasToken(PinToken(t)) && PinToken(t) == [t[0]] + PinToken(t[1..])
  {
    PinKeepsFront(t, 4);
    PinKeepsSemicolons(t);
    var p := PinToken(t);
    if "cch=" <= p {
      assert Front(p, 4) == "cch=";
      assert "cch=" <= t;
    }
  }

  lemma StableHead(rest: string)
    ensures HasToken(STABLE + rest) && AfterSemicolon(STABLE + rest) == rest
  {
    var t := STABLE + rest;
    assert t[..4] == "cch=" && t[10] == ';';
    assert t[1..][1..][1..][1..][1..][1..][1..][1..][1..][1..] == t[10..];
    SkipTo(t, 10);
    assert t[11..] == rest;
  }

  lemma {:induction false} SkipTo(t: string, i: nat)
    requires i < |t| && t[i] == ';' && ';' !in t[..i]
    ensures AfterSemicolon(t) == t[i + 1..]
  {
    if i > 0 {
      assert t[0] in t[..i];
      assert t[1..][..i - 1] == t[..i][1..];
      SkipTo(t[1..], i - 1);
    }
  }

  lemma {:induction false} PinIsIdempotent(t: string)
    ensures PinToken(PinToken(t)) == PinToken(t)
    decreases |t|
  {
    if t == [] {
    } else if HasToken(t) {
      var rest := AfterSemicolon(t);
      PinIsIdempotent(rest);
      StableHead(PinToken(rest));
    } else {
      PinIsIdempotent(t[1..]);
      PinMakesNoToken(t);
      assert PinToken(t)[1..] == PinToken(t[1..]);
    }
  }

  /** The substitution identifies exactly the texts that agree token values aside. */
  lemma {:induction false} PinIdentifies(a: string, b: string)
    ensures PinToken(a) == PinToken(b) <==> TokensAside(a, b)
    decreases |a|
  {
    if a != [] { if !HasToken(a) { PinMakesNoToken(a); } else { StableHead(PinToken(AfterSemicolon(a))); } }
    if b != [] { if !HasToken(b) { PinMakesNoToken(b); } else { StableHead(PinToken(AfterSemicolon(b))); } }
    if HasToken(a) && HasToken(b) {
      PinIdentifies(AfterSemicolon(a), AfterSemicolon(b));
    } else if a != [] && b != [] && !HasToken(a) && !HasToken(b) {
      PinIdentifies(a[1..], b[1..]);
      ConsEqual(a[0], PinToken(a[1..]), b[0], PinToken(b[1..]));
    }
  }

  // ---------------------------------------------------------------- system blocks

  predicate IsBilling(v: Json) {
    v.Str? && BILLING_HEADER <= v.s
  }

  function PinText(v: Json): Json {
    if IsBilling(v) then Str(PinToken(v.s)) else v
  }

  function PinFields(fields: seq<Field>): seq<Field> {
    if fields == [] then []
    else
      var f := fields[0];
      [if f.key == "text" then f.(value := PinText(f.value)) else f] + PinFields(fields[1..])
  }

  /** One step of `_neutralize_cch`: a block that is no object is left alone. */
  function PinBlock(block: Json): Json {
    if block.Obj? then Obj(PinFields(block.fields)) else block
  }

  function PinBlocks(blocks: seq<Json>): (pinned: seq<Json>)
    ensures |pinned| == |blocks|
  {
    if blocks == [] then [] else [PinBlock(blocks[0])] + PinBlocks(blocks[1..])
  }

  /** No token can start inside `p`. */
  predicate TokenFree(p: string) {
    forall i | 0 <= i < |p| :: p[i] != 'c' || (i + 1 < |p| && p[i + 1] != 'c')
  }

  lemma {:induction false} PinKeepsPrefix(p: string, t: string)
    requires TokenFree(p)
    ensures p <= PinToken(t) <==> p <= t
    decreases |p|
  {
    if p != [] && t != [] {
      if HasToken(t) {
        TokenTextStarts(t);
        hide PinToken;
        assert p[0] == 'c' ==> |p| > 1 && p[1] != 'c';
      } else {
        PinMakesNoToken(t);
        hide PinToken;
        forall i | 0 <= i < |p[1..]| ensures p[1..][i] != 'c' || (i + 1 < |p[1..]| && p[1..][i + 1] != 'c') {
          assert p[1..][i] == p[i + 1];
        }
        PinKeepsPrefix(p[1..], t[1..]);
        PrefixCons(p, t);
        PrefixCons(p, PinToken(t));
        assert PinToken(t)[1..] == PinToken(t[1..]);
      }
    }
  }

  lemma TokenTextStarts(t: string)
    requires HasToken(t)
    ensures |t| >= 2 && t[0] == 'c' && t[1] == 'c'
    ensures var pinned := PinToken(t); |pinned| >= 2 && pinned[0] == 'c' && pinned[1] == 'c'
  {
    assert t[..4] == "cch=" && PinToken(t)[..11] == STABLE;
    assert t[0] == t[..4][0] && t[1] == t[..4][1];
    assert PinToken(t)[0] == PinToken(t)[..11][0] && PinToken(t)[1] == PinToken(t)[..11][1];
  }

  lemma PrefixCons(p: string, t: string)
    requires p != [] && t != []
    ensures p <= t <==> p[0] == t[0] && p[1..] <= t[1..]
  {
    assert p == [p[0]] + p[1..] && t == [t[0]] + t[1..];
  }

  lemma PinTextKeepsBilling(v: Json)
    ensures IsBilling(PinText(v)) <==> IsBilling(v)
    ensures PinText(PinText(v)) == PinText(v)
  {
    if v.Str? {
      assert TokenFree(BILLING_HEADER);
      PinKeepsPrefix(BILLING_HEADER, v.s);
      PinIsIdempotent(v.s);
    }
  }

  /** The same text of a system block, billing token aside. */
  predicate TextsAlike(v: Json, w: Json) {
    if IsBilling(v) && IsBilling(w) then TokensAside(v.s, w.s) else Alike(v, w)
  }

  lemma PinTextIdentifies(v: Json, w: Json)
    ensures Strip(PinText(v)) == Strip(PinText(w)) <==> TextsAlike(v, w)
  {
    PinTextKeepsBilling(v);
    PinTextKeepsBilling(w);
    hide PinToken, TokensAside;
    if IsBilling(v) && IsBilling(w) {
      PinIdentifies(v.s, w.s);
    } else if IsBilling(v) || IsBilling(w) {
      assert PinText(v) != PinText(w);
      StripIdentifiesAlike(PinText(v), PinText(w));
    } else {
      StripIdentifiesAlike(v, w);
    }
  }

  /** The same system block, breakpoints and billing token aside. */
  predicate BlocksAlike(a: Json, b: Json) {
    if a.Obj? && b.Obj? then BlockFieldsAlike(a.fields, b.fields) else Alike(a, b)
  }

  predicate BlockFieldsAlike(f: seq<Field>, g: seq<Field>)
    decreases |f| + |g|
  {
    if f != [] && f[0].key == CACHE_CONTROL then BlockFieldsAlike(f[1..], g)
    else if g != [] && g[0].key == CACHE_CONTROL then BlockFieldsAlike(f, g[1..])
    else if f == [] || g == [] then f == g
    else
      && f[0].key == g[0].key
      && (if f[0].key == "text" then TextsAlike(f[0].value, g[0].value) else Alike(f[0].value, g[0].value))
      && BlockFieldsAlike(f[1..], g[1..])
  }

  lemma PinFieldsCons(fields: seq<Field>)
    requires fields != []
    ensures
      var f := fields[0];
      StripFields(PinFields(fields)) ==
        if f.key == CACHE_CONTROL then StripFields(PinFields(fields[1..]))
        else [Field(f.key, Strip(if f.key == "text" then PinText(f.value) else f.value))] + StripFields(PinFields(fields[1..]))
  {
    var pinned := PinFields(fields);
    assert pinned[1..] == PinFields(fields[1..]);
  }

  lemma {:induction false} PinFieldsIdentifies(f: seq<Field>, g: seq<Field>)
    ensures StripFields(PinFields(f)) == StripFields(PinFields(g)) <==> BlockFieldsAlike(f, g)
    decreases |f| + |g|
  {
    if f != [] { PinFieldsCons(f); }
    if g != [] { PinFieldsCons(g); }
    if f != [] && f[0].key == CACHE_CONTROL {
      PinFieldsIdentifies(f[1..], g);
    } else if g != [] && g[0].key == CACHE_CONTROL {
      PinFieldsIdentifies(f, g[1..]);
    } else if f != [] && g != [] {
      PinTextIdentifies(f[0].value, g[0].value);
      StripIdentifiesAlike(f[0].value, g[0].value);
      PinFieldsIdentifies(f[1..], g[1..]);
      var v := Strip(if f[0].key == "text" then PinText(f[0].value) else f[0].value);
      var w := Strip(if g[0].key == "text" then PinText(g[0].value) else g[0].value);
      ConsEqual(Field(f[0].key, v), StripFields(PinFields(f[1..])), Field(g[0].key, w), StripFields(PinFields(g[1..])));
    }
  }

  /** Pinning and stripping identifies exactly the system blocks that are alike. */
  lemma PinBlockIdentifies(a: Json, b: Json)
    ensures Strip(PinBlock(a)) == Strip(PinBlock(b)) <==> BlocksAlike(a, b)
  {
    if a.Obj? && b.Obj? {
      PinFieldsIdentifies(a.fields, b.fields);
    } else {
      StripIdentifiesAlike(a, b);
    }
  }

  /** Pinning what was pinned and stripped changes nothing. */
  lemma {:induction false} PinFieldsSettled(fields: seq<Field>)
    ensures PinFields(StripFields(PinFields(fields))) == StripFields(PinFields(fields))
  {
    if fields != [] {
      PinFieldsCons(fields);
      PinFieldsSettled(fields[1..]);
      var f, rest := fields[0], StripFields(PinFields(fields[1..]));
      if f.key != CACHE_CONTROL {
        var v := Strip(if f.key == "text" then PinText(f.value) else f.value);
        PinTextKeepsBilling(f.value);
        assert f.key == "text" ==> PinText(v) == v;
        assert ([Field(f.key, v)] + rest)[1..] == rest;
      }
    }
  }

  // ---------------------------------------------------------------- the request body

  const MARKER := Obj([Field("type", Str("ephemeral")), Field("ttl", Str("1h"))])

  function Get(fields: seq<Field>, key: string): Option<Json> {
    if fields == [] then None
    else if fields[0].key == key then Some(fields[0].value)
    else Get(fields[1..], key)
  }

  /** Dict assignment: in place when the key is there, else at the end. */
  function Put(fields: seq<Field>, key: string, value: Json): seq<Field> {
    if fields == [] then [Field(key, value)]
    else if fields[0].key == key then [Field(key, value)] + fields[1..]
    else [fields[0]] + Put(fields[1..], key, value)
  }

  function MarkLast(blocks: seq<Json>): seq<Json>
    requires blocks != []
  {
    var n := |blocks| - 1;
    if blocks[n].Obj? then blocks[..n] + [Obj(Put(blocks[n].fields, CACHE_CONTROL, MARKER))] else blocks
  }

  function RewriteSystem(blocks: seq<Json>): seq<Json>
    requires blocks != []
  {
    MarkLast(StripItems(PinBlocks(blocks)))
  }

  /** The three entries that are rewritten. Looping over tools that are no list strips nothing. */
  function RewriteValue(key: string, v: Json): Json {
    if key == "system" && v.Arr? && v.items != [] then Arr(RewriteSystem(v.items))
    else if key == "tools" && v.Arr? then Arr(StripItems(v.items))
    else if key == "messages" then Strip(v)
    else v
  }

  function RewriteFields(fields: seq<Field>): seq<Field> {
    if fields == [] then []
    else [Field(fields[0].key, RewriteValue(fields[0].key, fields[0].value))] + RewriteFields(fields[1..])
  }

  datatype Outcome = Body(fields: seq<Field>) | TypeError

  function ProviderPin(provider: string): Json {
    Obj([Field("order", Arr([Str(provider)])), Field("allow_fallbacks", Bool(true))])
  }

  /** A caching provider was found and the system prompt is a non-empty list. */
  predicate Rewrites(parsed: seq<Field>, provider: Option<string>) {
    && provider.Some? && provider.value != ""
    && var system := Get(parsed, "system");
      system.Some? && system.value.Arr? && system.value.items != []
  }

  predicate Iterable(tools: Option<Json>) {
    tools.Some? ==> tools.value.Arr? || tools.value.Obj? || tools.value.Str?
  }

  function TransformRequest(parsed: seq<Field>, provider: Option<string>, sessionId: string): Outcome {
    if !Rewrites(parsed, provider) then Body(parsed)
    else if !Iterable(Get(parsed, "tools")) then TypeError
    else Body(Put(Put(RewriteFields(parsed), "provider", ProviderPin(provider.value)), "session_id", Str(sessionId)))
  }

  // ---------------------------------------------------------------- dict laws

  lemma {:induction false} GetPut(fields: seq<Field>, key: string, value: Json, other: string)
    ensures Get(Put(fields, key, value), other) == if other == key then Some(value) else Get(fields, other)
  {
    if fields != [] && fields[0].key != key {
      GetPut(fields[1..], key, value, other);
      assert Put(fields, key, value)[1..] == Put(fields[1..], key, value);
    }
  }

  lemma {:induction false} PutAgain(fields: seq<Field>, key: string, value: Json)
    requires Get(fields, key) == Some(value)
    ensures Put(fields, key, value) == fields
  {
    if fields[0].key != key {
      PutAgain(fields[1..], key, value);
    } else {
      assert fields == [fields[0]] + fields[1..];
    }
  }

  lemma {:induction false} PutAbsent(fields: seq<Field>, key: string, value: Json)
    requires forall i | 0 <= i < |fields| :: fields[i].key != key
    ensures Put(fields, key, value) == fields + [Field(key, value)]
  {
    if fields != [] { PutAbsent(fields[1..], key, value); }
  }

  lemma {:induction false} GetRewrite(fields: seq<Field>, key: string)
    ensures Get(RewriteFields(fields), key) ==
      match Get(fields, key) { case None => None case Some(v) => Some(RewriteValue(key, v)) }
  {
    if fields != [] {
      GetRewrite(fields[1..], key);
      assert RewriteFields(fields)[1..] == RewriteFields(fields[1..]);
    }
  }

  /** An entry that is not rewritten can be assigned before or after. */
  lemma {:induction false} RewritePut(fields: seq<Field>, key: string, value: Json)
    requires key != "system" && key != "tools" && key != "messages"
    ensures RewriteFields(Put(fields, key, value)) == Put(RewriteFields(fields), key, value)
  {
    if fields != [] {
      var put := Put(fields, key, value);
      if fields[0].key == key {
        assert put[1..] == fields[1..];
        assert RewriteFields(fields)[1..] == RewriteFields(fields[1..]);
      } else {
        RewritePut(fields[1..], key, value);
        assert put[1..] == Put(fields[1..], key, value);
        assert RewriteFields(fields)[1..] == RewriteFields(fields[1..]);
      }
    }
  }

  // ---------------------------------------------------------------- idempotence

  lemma {:induction false} StripFieldsSnoc(fields: seq<Field>, last: Field)
    ensures StripFields(fields + [last]) ==
      if last.key == CACHE_CONTROL then StripFields(fields) else StripFields(fields) + [Field(last.key, Strip(last.value))]
  {
    if fields != [] {
      StripFieldsSnoc(fields[1..], last);
      assert (fields + [last])[1..] == fields[1..] + [last];
    }
  }

  lemma {:induction false} PinFieldsSnoc(fields: seq<Field>, last: Field)
    requires last.key != "text"
    ensures PinFields(fields + [last]) == PinFields(fields) + [last]
  {
    if fields != [] {
      PinFieldsSnoc(fields[1..], last);
      assert (fields + [last])[1..] == fields[1..] + [last];
    }
  }

  lemma {:induction false} NoBreakpointKey(fields: seq<Field>)
    requires FieldBreakpoints(fields) == 0
    ensures forall i | 0 <= i < |fields| :: fields[i].key != CACHE_CONTROL
  {
    if fields != [] { NoBreakpointKey(fields[1..]); }
  }

  /** A block after pinning and stripping: doing both again, with or without the marker, gives it back. */
  lemma SettledBlock(block: Json)
    ensures var b := Strip(PinBlock(block));
      && Breakpoints(b) == 0 && Strip(PinBlock(b)) == b
      && (b.Obj? ==>
        && Put(b.fields, CACHE_CONTROL, MARKER) == b.fields + [Field(CACHE_CONTROL, MARKER)]
        && Strip(PinBlock(Obj(Put(b.fields, CACHE_CONTROL, MARKER)))) == b)
  {
    var b := Strip(PinBlock(block));
    StripRemovesAll(PinBlock(block));
    StripKeepsTheRest(b);
    if block.Obj? {
      PinFieldsSettled(block.fields);
      NoBreakpointKey(b.fields);
      PutAbsent(b.fields, CACHE_CONTROL, MARKER);
      PinFieldsSnoc(b.fields, Field(CACHE_CONTROL, MARKER));
      StripFieldsSnoc(b.fields, Field(CACHE_CONTROL, MARKER));
    }
  }

  lemma {:induction false} SettledAt(blocks: seq<Json>, i: nat)
    requires i < |blocks|
    ensures StripItems(PinBlocks(blocks))[i] == Strip(PinBlock(blocks[i]))
  {
    assert PinBlocks(blocks)[1..] == PinBlocks(blocks[1..]);
    if i > 0 { SettledAt(blocks[1..], i - 1); }
  }

  lemma SystemIsIdempotent(blocks: seq<Json>)
    requires blocks != []
    ensures |RewriteSystem(blocks)| == |blocks|
    ensures RewriteSystem(RewriteSystem(blocks)) == RewriteSystem(blocks)
  {
    var once := RewriteSystem(blocks);
    var bare, again := StripItems(PinBlocks(blocks)), StripItems(PinBlocks(once));
    assert |once| == |bare| == |again| == |blocks|;
    forall i | 0 <= i < |blocks| ensures again[i] == bare[i] {
      SettledAt(blocks, i);
      SettledAt(once, i);
      SettledBlock(blocks[i]);
    }
    assert again == bare;
  }

  lemma ValueIsIdempotent(key: string, v: Json)
    ensures RewriteValue(key, RewriteValue(key, v)) == RewriteValue(key, v)
  {
    if key == "system" && v.Arr? && v.items != [] {
      SystemIsIdempotent(v.items);
    } else if key == "tools" && v.Arr? {
      StripItemsRemovesAll(v.items);
      StripItemsKeepsTheRest(StripItems(v.items));
    } else if key == "messages" {
      StripRemovesAll(v);
      StripKeepsTheRest(Strip(v));
    }
  }

  lemma {:induction false} FieldsAreIdempotent(fields: seq<Field>)
    ensures RewriteFields(RewriteFields(fields)) == RewriteFields(fields)
  {
    if fields != [] {
      FieldsAreIdempotent(fields[1..]);
      ValueIsIdempotent(fields[0].key, fields[0].value);
      assert RewriteFields(fields)[1..] == RewriteFields(fields[1..]);
    }
  }

  /** Rewriting a rewritten body changes nothing. */
  lemma RewriteIsIdempotent(parsed: seq<Field>, provider: Option<string>, sessionId: string)
    requires TransformRequest(parsed, provider, sessionId).Body?
    ensures var once := TransformRequest(parsed, provider, sessionId);
      TransformRequest(once.fields, provider, sessionId) == once
  {
    if Rewrites(parsed, provider) {
      var pin, sid := ProviderPin(provider.value), Str(sessionId);
      var r := RewriteFields(parsed);
      var r1 := Put(r, "provider", pin);
      var r2 := Put(r1, "session_id", sid);
      hide Put, Get, RewriteFields, RewriteSystem, ProviderPin;
      forall key | key == "system" || key == "tools" ensures Get(r2, key) == Get(r, key) {
        GetPut(r, "provider", pin, key);
        GetPut(r1, "session_id", sid, key);
      }
      GetRewrite(parsed, "system");
      GetRewrite(parsed, "tools");
      SystemIsIdempotent(Get(parsed, "system").value.items);
      FieldsAreIdempotent(parsed);
      RewritePut(r, "provider", pin);
      RewritePut(r1, "session_id", sid);
      GetPut(r, "provider", pin, "provider");
      GetPut(r1, "session_id", sid, "provider");
      GetPut(r1, "session_id", sid, "session_id");
      PutAgain(r2, "provider", pin);
      PutAgain(r2, "session_id", sid);
    }
  }

  // ---------------------------------------------------------------- one breakpoint

  lemma {:induction false} BreakpointsOfItems(items: seq<Json>, last: Json)
    ensures ItemBreakpoints(items + [last]) == ItemBreakpoints(items) + Breakpoints(last)
  {
    if items != [] {
      BreakpointsOfItems(items[1..], last);
      assert (items + [last])[1..] == items[1..] + [last];
    }
  }

  lemma {:induction false} BreakpointsOfFields(fields: seq<Field>, last: Field)
    ensures FieldBreakpoints(fields + [last]) == FieldBreakpoints(fields) + FieldBreakpoints([last])
  {
    if fields != [] {
      BreakpointsOfFields(fields[1..], last);
      assert (fields + [last])[1..] == fields[1..] + [last];
    }
  }

  lemma MarkerIsOne()
    ensures FieldBreakpoints([Field(CACHE_CONTROL, MARKER)]) == 1
  {
    var f := MARKER.fields;
    assert FieldBreakpoints(f) == FieldBreakpoints(f[1..]) == FieldBreakpoints(f[1..][1..]) == 0;
  }

  /** The system prompt carries exactly the marker, at the end of its last block when that is an object. */
  lemma SystemHasOneBreakpoint(blocks: seq<Json>)
    requires blocks != []
    ensures ItemBreakpoints(RewriteSystem(blocks)) == if blocks[|blocks| - 1].Obj? then 1 else 0
    ensures MarksLast(RewriteSystem(blocks), blocks)
  {
    var bare, n := StripItems(PinBlocks(blocks)), |blocks| - 1;
    SettledAt(blocks, n);
    SettledBlock(blocks[n]);
    StripItemsRemovesAll(PinBlocks(blocks));
    assert bare == bare[..n] + [bare[n]];
    BreakpointsOfItems(bare[..n], bare[n]);
    assert RewriteSystem(blocks) == MarkLast(bare);
    hide Strip, StripItems, StripFields, PinBlock, PinBlocks, PinFields, Put, RewriteSystem;
    if blocks[n].Obj? {
      var marked := Obj(Put(bare[n].fields, CACHE_CONTROL, MARKER));
      assert RewriteSystem(blocks) == bare[..n] + [marked] && RewriteSystem(blocks)[..n] == bare[..n];
      BreakpointsOfItems(bare[..n], marked);
      BreakpointsOfFields(bare[n].fields, Field(CACHE_CONTROL, MARKER));
      MarkerIsOne();
      GetPut(bare[n].fields, CACHE_CONTROL, MARKER, CACHE_CONTROL);
    } else {
      assert RewriteSystem(blocks) == bare;
    }
  }

  function BreakpointsAt(fields: seq<Field>, key: string): nat {
    var v := Get(fields, key);
    if v.Some? then Breakpoints(v.value) else 0
  }

  /**
   After a rewrite the system tree holds exactly one breakpoint when its last block is an object,
   and the messages none. The tools hold none exactly when they are not an object that held some:
   the loop over an object walks its keys and strips nothing.
   */
  lemma OneBreakpointIsLeft(parsed: seq<Field>, provider: Option<string>, sessionId: string)
    requires Rewrites(parsed, provider) && Iterable(Get(parsed, "tools"))
    ensures
      var out := TransformRequest(parsed, provider, sessionId).fields;
      var blocks := Get(parsed, "system").value.items;
      && Get(out, "system") == Some(Arr(RewriteSystem(blocks)))
      && BreakpointsAt(out, "system") == (if blocks[|blocks| - 1].Obj? then 1 else 0)
      && MarksLast(RewriteSystem(blocks), blocks)
      && BreakpointsAt(out, "messages") == 0
      && (BreakpointsAt(out, "tools") == 0 <==>
          !(Get(parsed, "tools").Some? && Get(parsed, "tools").value.Obj? && BreakpointsAt(parsed, "tools") > 0))
  {
    hide Put, Get, RewriteFields, RewriteSystem, ProviderPin, TransformRequest;
    var blocks := Get(parsed, "system").value.items;
    EntryOfTheRewrite(parsed, provider, sessionId, "system");
    EntryOfTheRewrite(parsed, provider, sessionId, "tools");
    EntryOfTheRewrite(parsed, provider, sessionId, "messages");
    SystemHasOneBreakpoint(blocks);
    if Get(parsed, "messages").Some? { StripRemovesAll(Get(parsed, "messages").value); }
    var tools := Get(parsed, "tools");
    if tools.Some? && tools.value.Arr? { StripItemsRemovesAll(tools.value.items); }
  }

  /** When the last block is an object it carries the marker, and no block before it carries any. */
  ghost predicate MarksLast(rewritten: seq<Json>, blocks: seq<Json>)
    requires blocks != []
  {
    var n := |blocks| - 1;
    && |rewritten| == |blocks|
    && ItemBreakpoints(rewritten[..n]) == 0
    && (blocks[n].Obj? ==> rewritten[n].Obj? && Get(rewritten[n].fields, CACHE_CONTROL) == Some(MARKER))
  }

  lemma EntryOfTheRewrite(parsed: seq<Field>, provider: Option<string>, sessionId: string, key: string)
    requires Rewrites(parsed, provider) && Iterable(Get(parsed, "tools"))
    requires key == "system" || key == "tools" || key == "messages"
    ensures
      var out, entry := TransformRequest(parsed, provider, sessionId).fields, Get(parsed, key);
      Get(out, key) == if entry.Some? then Some(RewriteValue(key, entry.value)) else None
  {
    var r := RewriteFields(parsed);
    var r1 := Put(r, "provider", ProviderPin(provider.value));
    var out := Put(r1, "session_id", Str(sessionId));
    assert out == TransformRequest(parsed, provider, sessionId).fields;
    hide Put, Get, RewriteFields, RewriteValue, ProviderPin, TransformRequest;
    GetPut(r, "provider", ProviderPin(provider.value), key);
    GetPut(r1, "session_id", Str(sessionId), key);
    GetRewrite(parsed, key);
  }

  // ---------------------------------------------------------------- one canonical body

  ghost predicate ValuesAlike(key: string, v: Json, w: Json) {
    if key == "system" && v.Arr? && w.Arr? then
      |v.items| == |w.items| && forall i | 0 <= i < |v.items| :: BlocksAlike(v.items[i], w.items[i])
    else if key == "tools" && v.Arr? && w.Arr? then ItemsAlike(v.items, w.items)
    else if key == "messages" then Alike(v, w)
    else v == w
  }

  /** Two bodies that differ only in breakpoints and billing tokens under the three owned entries. */
  ghost predicate BodiesAlike(a: seq<Field>, b: seq<Field>) {
    |a| == |b| && forall i | 0 <= i < |a| :: a[i].key == b[i].key && ValuesAlike(a[i].key, a[i].value, b[i].value)
  }

  lemma ValuesCanonical(key: string, v: Json, w: Json)
    requires ValuesAlike(key, v, w)
    ensures RewriteValue(key, v) == RewriteValue(key, w)
  {
    if key == "system" && v.Arr? && w.Arr? && v.items != [] {
      var x, y := StripItems(PinBlocks(v.items)), StripItems(PinBlocks(w.items));
      forall i | 0 <= i < |x| ensures x[i] == y[i] {
        SettledAt(v.items, i);
        SettledAt(w.items, i);
        PinBlockIdentifies(v.items[i], w.items[i]);
      }
      assert x == y;
    } else if key == "tools" && v.Arr? && w.Arr? {
      StripIdentifiesItems(v.items, w.items);
    } else if key == "messages" {
      StripIdentifiesAlike(v, w);
    }
  }

  lemma {:induction false} FieldsCanonical(a: seq<Field>, b: seq<Field>)
    requires BodiesAlike(a, b)
    ensures RewriteFields(a) == RewriteFields(b)
    ensures Rewrites(a, Some("p")) <==> Rewrites(b, Some("p"))
    ensures Iterable(Get(a, "tools")) <==> Iterable(Get(b, "tools"))
  {
    if a != [] {
      ValuesCanonical(a[0].key, a[0].value, b[0].value);
      assert BodiesAlike(a[1..], b[1..]);
      FieldsCanonical(a[1..], b[1..]);
    }
  }

  /** Requests that differ only in what the rewrite owns become the same request. */
  lemma AlikeBodiesBecomeEqual(a: seq<Field>, b: seq<Field>, provider: Option<string>, sessionId: string)
    requires BodiesAlike(a, b) && Rewrites(a, provider)
    ensures TransformRequest(a, provider, sessionId) == TransformRequest(b, provider, sessionId)
  {
    FieldsCanonical(a, b);
    hide RewriteFields, Put, Get;
    assert Rewrites(a, Some("p")) && Rewrites(b, provider);
  }

  // ---------------------------------------------------------------- what a rewrite changes

  /** `cch=`, anything but a semicolon, and a semicolon start at position `i`. */
  predicate TokenAt(t: string, i: nat) {
    i + 4 <= |t| && t[i..i + 4] == "cch=" && ';' in t[i + 4..]
  }

  lemma TokenAtFront(t: string)
    ensures TokenAt(t, 0) <==> HasToken(t)
  {
    if |t| >= 4 {
      assert t == t[..4] + t[4..] && t[0..4] == t[..4];
      assert "cch=" <= t <==> t[..4] == "cch=";
    }
  }

  lemma TokenBehind(c: char, t: string, i: nat)
    ensures TokenAt([c] + t, i + 1) <==> TokenAt(t, i)
  {
    if i + 4 <= |t| {
      assert ([c] + t)[i + 1..i + 5] == t[i..i + 4] && ([c] + t)[i + 5..] == t[i + 4..];
    }
  }

  /** Up to the first token a text is kept, and one without any is kept as a whole. */
  lemma {:induction false} PinKeepsUpToAToken(a: string, b: string)
    requires forall i: nat | i < |a| :: !TokenAt(a + b, i)
    ensures PinToken(a + b) == a + PinToken(b)
  {
    if a == [] {
      assert a + b == b;
    } else {
      var c, rest := a[0], a[1..];
      assert a + b == [c] + (rest + b);
      TokenAtFront(a + b);
      assert !TokenAt(a + b, 0);
      forall i: nat | i < |rest| ensures !TokenAt(rest + b, i) {
        TokenBehind(c, rest + b, i);
        assert !TokenAt(a + b, i + 1);
      }
      PinKeepsUpToAToken(rest, b);
      PinSkips(c, rest + b);
    }
  }

  lemma PinSkips(c: char, t: string)
    requires !HasToken([c] + t)
    ensures PinToken([c] + t) == [c] + PinToken(t)
  {
    assert ([c] + t)[1..] == t;
  }

  /** The first token is replaced by the constant one, and what follows it is treated the same way. */
  lemma PinReplacesTheFirstToken(a: string, v: string, b: string)
    requires ';' !in v && forall i: nat | i < |a| :: !TokenAt(a + ("cch=" + v + ";" + b), i)
    ensures PinToken(a + ("cch=" + v + ";" + b)) == a + "cch=stable;" + PinToken(b)
  {
    PinKeepsUpToAToken(a, "cch=" + v + ";" + b);
    PinsOneToken(v, b);
    hide PinToken;
  }

  lemma PinsOneToken(v: string, b: string)
    requires ';' !in v
    ensures PinToken("cch=" + v + ";" + b) == "cch=stable;" + PinToken(b)
  {
    var token := "cch=" + v + ";" + b;
    assert token[4 + |v|] == ';' && token[..4] == "cch=" && token[4..4 + |v|] == v;
    forall i | 0 <= i < 4 + |v| ensures token[i] != ';' {
      if i >= 4 { assert token[i] == v[i - 4]; }
    }
    SkipTo(token, 4 + |v|);
    assert token[4 + |v| + 1..] == b;
    assert HasToken(token) && AfterSemicolon(token) == b;
  }

  lemma {:induction false} GetOfThePinned(fields: seq<Field>)
    ensures Get(StripFields(PinFields(fields)), "text") ==
      match Get(fields, "text") { case None => None case Some(v) => Some(Strip(PinText(v))) }
  {
    hide Strip, PinText;
    if fields != [] {
      GetOfThePinned(fields[1..]);
      PinFieldsCons(fields);
      var f, rest := fields[0], StripFields(PinFields(fields[1..]));
      if f.key != CACHE_CONTROL {
        var first := Field(f.key, Strip(if f.key == "text" then PinText(f.value) else f.value));
        assert ([first] + rest)[1..] == rest;
      }
    }
  }

  /** Only texts that start with the billing header are pinned: any other text of a system block stays as it is. */
  lemma SystemTextsArePinned(blocks: seq<Json>, i: nat)
    requires i < |blocks| && blocks[i].Obj?
    ensures
      var out, text := RewriteSystem(blocks), Get(blocks[i].fields, "text");
      && |out| == |blocks| && out[i].Obj?
      && (text.Some? && text.value.Str? ==>
            Get(out[i].fields, "text") ==
              Some(Str(if "x-anthropic-billing-header" <= text.value.s then PinToken(text.value.s) else text.value.s)))
      && (text.None? ==> Get(out[i].fields, "text").None?)
  {
    SettledAt(blocks, i);
    GetOfThePinned(blocks[i].fields);
    var bare := StripItems(PinBlocks(blocks));
    GetPut(bare[i].fields, CACHE_CONTROL, MARKER, "text");
    hide StripItems, PinBlocks, StripFields, PinFields, Get, Put, PinToken;
  }

  /** A rewritten value differs from the original only in breakpoints and billing tokens. */
  lemma RewriteStaysAlike(key: string, v: Json)
    ensures ValuesAlike(key, RewriteValue(key, v), v)
  {
    hide Strip, StripItems, PinBlock, PinBlocks, Put, BlocksAlike, Alike, ItemsAlike;
    if key == "system" && v.Arr? && v.items != [] {
      SystemIsIdempotent(v.items);
      forall i | 0 <= i < |v.items| ensures BlocksAlike(RewriteSystem(v.items)[i], v.items[i]) {
        SettledAt(v.items, i);
        SettledBlock(v.items[i]);
        PinBlockIdentifies(RewriteSystem(v.items)[i], v.items[i]);
      }
    } else if key == "system" && v.Arr? {
    } else if key == "tools" && v.Arr? {
      StripItemsRemovesAll(v.items);
      StripItemsKeepsTheRest(StripItems(v.items));
      StripIdentifiesItems(StripItems(v.items), v.items);
    } else if key == "messages" {
      StripRemovesAll(v);
      StripKeepsTheRest(Strip(v));
      StripIdentifiesAlike(Strip(v), v);
    }
  }

  /**
   A body is passed through exactly when there is no caching provider or no non-empty list of system
   blocks. Otherwise it raises when `tools` cannot be looped over, and else names the provider and the
   session, and differs in nothing but breakpoints and billing tokens.
   */
  lemma RewriteChangesNothingElse(parsed: seq<Field>, provider: Option<string>, sessionId: string, key: string)
    ensures
      var system, tools := Get(parsed, "system"), Get(parsed, "tools");
      var applies := provider.Some? && provider.value != "" && system.Some? && system.value.Arr? && system.value.items != [];
      var result := TransformRequest(parsed, provider, sessionId);
      if !applies then result == Body(parsed)
      else if tools.Some? && !tools.value.Arr? && !tools.value.Obj? && !tools.value.Str? then result == TypeError
      else
        && result.Body?
        && var before, after := Get(parsed, key), Get(result.fields, key);
          if key == "session_id" then after == Some(Str(sessionId))
          else if key == "provider" then
            after == Some(Obj([Field("order", Arr([Str(provider.value)])), Field("allow_fallbacks", Bool(true))]))
          else (before.Some? <==> after.Some?) && (before.Some? ==> ValuesAlike(key, after.value, before.value))
  {
    if Rewrites(parsed, provider) && Iterable(Get(parsed, "tools")) {
      var r := RewriteFields(parsed);
      var r1 := Put(r, "provider", ProviderPin(provider.value));
      hide Put, Get, RewriteFields, RewriteValue, ValuesAlike;
      GetPut(r, "provider", ProviderPin(provider.value), key);
      GetPut(r1, "session_id", Str(sessionId), key);
      GetRewrite(parsed, key);
      if Get(parsed, key).Some? { RewriteStaysAlike(key, Get(parsed, key).value); }
    }
  }
}
