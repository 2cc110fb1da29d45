/** The two accumulating loops of the HTML extractor: JSON-LD types and links. */
module Extraction {
  import opened Wrappers
  import opened Links
  import Text

  /** What an item of a JSON-LD script has under "@type", list elements as strings. */
  datatype Item = NoType | OneType(name: string) | ManyTypes(names: seq<string>) | NotAnObject

  datatype Script = Blank | Unparseable | Objects(items: seq<Item>) | SingleObject(item: Item) | Scalar

  function TypesOf(item: Item): seq<string> {
    match item
    case NoType => []
    case OneType(name) => [name]
    case ManyTypes(names) => names
    case NotAnObject => []
  }

  function AllTypes(items: seq<Item>): seq<string> {
    if items == [] then [] else AllTypes(items[..|items| - 1]) + TypesOf(items[|items| - 1])
  }

  function ItemsOf(script: Script): seq<Item> {
    match script
    case Objects(items) => items
    case SingleObject(item) => [item]
    case _ => []
  }

  function AllItems(scripts: seq<Script>): seq<Item> {
    if scripts == [] then [] else AllItems(scripts[..|scripts| - 1]) + ItemsOf(scripts[|scripts| - 1])
  }

  lemma {:induction false} AllTypesConcat(a: seq<Item>, b: seq<Item>)
    ensures AllTypes(a + b) == AllTypes(a) + AllTypes(b)
  {
    if b == [] {
      assert a + b == a;
    } else {
      assert (a + b)[..|a + b| - 1] == a + b[..|b| - 1];
      AllTypesConcat(a, b[..|b| - 1]);
    }
  }

  /** A list adds its elements, an object itself, anything else nothing. */
  lemma ItemsAdded(scripts: seq<Script>, script: Script)
    ensures AllItems(scripts + [script]) ==
            AllItems(scripts) +
            (if script.Objects? then script.items else if script.SingleObject? then [script.item] else [])
  {
    LastScript(scripts, script);
  }

  /** An item adds the types it names, in order. */
  lemma TypesAdded(items: seq<Item>, item: Item)
    ensures AllTypes(items + [item]) ==
            AllTypes(items) + (if item.OneType? then [item.name] else if item.ManyTypes? then item.names else [])
  {
    LastItem(items, item);
  }

  lemma LastScript(scripts: seq<Script>, script: Script)
    ensures AllItems(scripts + [script]) == AllItems(scripts) + ItemsOf(script)
  {
    assert (scripts + [script])[..|scripts|] == scripts;
  }

  lemma LastItem(items: seq<Item>, item: Item)
    ensures AllTypes(items + [item]) == AllTypes(items) + TypesOf(item)
  {
    assert (items + [item])[..|items|] == items;
  }

  /** What follows is deduplicated the same way behind two lists with the same distinct elements. */
  lemma {:induction false} DedupeBehind<T>(a: seq<T>, b: seq<T>, c: seq<T>)
    requires Dedupe(a) == Dedupe(b)
    ensures Dedupe(a + c) == Dedupe(b + c)
  {
    if c == [] {
      assert a + c == a && b + c == b;
    } else {
      var init, last := c[..|c| - 1], c[|c| - 1];
      assert (a + c)[..|a + c| - 1] == a + init && (b + c)[..|b + c| - 1] == b + init;
      DedupeBehind(a, b, init);
      DedupeMember(a, last);
      DedupeMember(b, last);
    }
  }

  /** Scanning the old items once more before the new ones adds nothing. */
  lemma RescanAddsNothing(types: seq<string>, seen: seq<string>, added: seq<string>)
    requires Dedupe(types) == Dedupe(seen)
    ensures Dedupe(types + (seen + added)) == Dedupe(seen + added)
  {
    DedupeBehind(types, seen, seen + added);
    DedupeConcat(seen, seen);
    DedupeBehind(seen + seen, seen, added);
    assert seen + (seen + added) == (seen + seen) + added;
  }

  lemma {:induction false} ItemsGrow(scripts: seq<Script>, n: nat, item: Item)
    requires n <= |scripts| && item in AllItems(scripts[..n])
    ensures item in AllItems(scripts)
  {
    if n < |scripts| {
      var init := scripts[..|scripts| - 1];
      assert init[..n] == scripts[..n];
      ItemsGrow(init, n, item);
    } else {
      assert scripts[..n] == scripts;
    }
  }

  datatype JsonLd = JsonLd(items: seq<Item>, types: seq<string>)

  lemma AllItemsStep(scripts: seq<Script>, i: nat)
    requires i < |scripts|
    ensures AllItems(scripts[..i + 1]) == AllItems(scripts[..i]) + ItemsOf(scripts[i])
  {
    assert scripts[..i + 1][..i] == scripts[..i];
  }

  /** One scan: the types of all items behind those already found, until an item is not an object. */
  method Scan(items: seq<Item>, found: seq<string>) returns (types: seq<string>, bad: Option<Item>)
    ensures bad.None? ==> NotAnObject !in items && types == found + AllTypes(items)
    ensures bad.Some? ==> bad.value == NotAnObject && NotAnObject in items
  {
    types := found;
    for j := 0 to |items|
      invariant types == found + AllTypes(items[..j]) && NotAnObject !in items[..j]
    {
      assert items[..j + 1] == items[..j] + [items[j]];
      assert items[..j + 1][..j] == items[..j];
      if items[j].NotAnObject? {
        return types, Some(items[j]);
      }
      types := types + TypesOf(items[j]);
    }
    assert items[..|items|] == items;
    bad := None;
  }

  /** The code scans all items found so far after every script. The result is that of one scan of the final
      items; an item that is not an object raises. */
  method ExtractJsonLd(scripts: seq<Script>) returns (r: Result<JsonLd, Item>)
    ensures r.Ok? <==> NotAnObject !in AllItems(scripts)
    ensures r.Ok? ==> r.value == JsonLd(AllItems(scripts), Dedupe(AllTypes(AllItems(scripts))))
  {
    var items: seq<Item> := [];
    var types: seq<string> := [];
    for i := 0 to |scripts|
      invariant items == AllItems(scripts[..i]) && NotAnObject !in items
      invariant Dedupe(types) == Dedupe(AllTypes(items))
    {
      AllItemsStep(scripts, i);
      if scripts[i].Blank? || scripts[i].Unparseable? {
        continue;
      }
      RescanAddsNothing(types, AllTypes(items), AllTypes(ItemsOf(scripts[i])));
      AllTypesConcat(items, ItemsOf(scripts[i]));
      items := items + ItemsOf(scripts[i]);
      var bad;
      types, bad := Scan(items, types);
      if bad.Some? {
        ItemsGrow(scripts, i + 1, bad.value);
        return Err(bad.value);
      }
    }
    assert scripts[..|scripts|] == scripts;
    r := Ok(JsonLd(items, Dedupe(types)));
  }

  // ---------------------------------------------------------------- extract_links

  const SKIPPED := ["#", "javascript:", "mailto:", "tel:"]

  predicate IsLink(href: string) {
    href != "" && forall p | p in SKIPPED :: !(p <= href)
  }

  /** The links of a page: `resolve` is normalize_url after urljoin with the page's URL. */
  function Resolved(hrefs: seq<string>, resolve: string -> string): seq<string> {
    if hrefs == [] then []
    else
      var href := Text.Strip(hrefs[|hrefs| - 1]);
      Resolved(hrefs[..|hrefs| - 1], resolve) + if IsLink(href) then [resolve(href)] else []
  }

  /** An anchor adds its stripped target, resolved, unless nothing is left of it or it starts like a fragment, a
      script, a mail address or a phone number. */
  lemma LinksOfAnchors(hrefs: seq<string>, href: string, resolve: string -> string)
    ensures var h := Text.Strip(href);
            Resolved(hrefs + [href], resolve) ==
            if h == "" || "#" <= h || "javascript:" <= h || "mailto:" <= h || "tel:" <= h then Resolved(hrefs, resolve)
            else Resolved(hrefs, resolve) + [resolve(h)]
  {
    assert (hrefs + [href])[..|hrefs|] == hrefs;
    SkippedPrefixes(Text.Strip(href));
  }

  lemma SkippedPrefixes(h: string)
    ensures IsLink(h) <==> !(h == "" || "#" <= h || "javascript:" <= h || "mailto:" <= h || "tel:" <= h)
  {
    var skipped := SKIPPED;
    assert skipped[0] == "#" && skipped[1] == "javascript:" && skipped[2] == "mailto:" && skipped[3] == "tel:";
    AnyPrefix(skipped, h);
  }

  lemma AnyPrefix(skipped: seq<string>, h: string)
    requires |skipped| == 4
    ensures (exists p :: p in skipped && p <= h) <==>
            skipped[0] <= h || skipped[1] <= h || skipped[2] <= h || skipped[3] <= h
  {
    assert skipped[0] in skipped && skipped[1] in skipped && skipped[2] in skipped && skipped[3] in skipped;
    if p :| p in skipped && p <= h {
      var i :| 0 <= i < 4 && skipped[i] == p;
    }
  }

  lemma ResolvedStep(hrefs: seq<string>, resolve: string -> string, i: nat)
    requires i < |hrefs|
    ensures var href := Text.Strip(hrefs[i]);
            Resolved(hrefs[..i + 1], resolve) ==
            Resolved(hrefs[..i], resolve) + if IsLink(href) then [resolve(href)] else []
  {
    assert hrefs[..i + 1][..i] == hrefs[..i];
  }

  lemma DedupeStep<T>(xs: seq<T>, x: T)
    ensures Dedupe(xs + [x]) == if x in xs then Dedupe(xs) else Dedupe(xs) + [x]
  {
    assert (xs + [x])[..|xs|] == xs;
  }

  method ExtractLinks(hrefs: seq<string>, resolve: string -> string) returns (links: seq<string>)
    ensures links == Dedupe(Resolved(hrefs, resolve))
  {
    links := [];
    var seen := {};
    ghost var found: seq<string> := [];
    for i := 0 to |hrefs|
      invariant found == Resolved(hrefs[..i], resolve)
      invariant forall l :: l in seen <==> l in found
      invariant links == Dedupe(found)
    {
      ResolvedStep(hrefs, resolve, i);
      var href := Text.Strip(hrefs[i]);
      if IsLink(href) {
        var absolute := resolve(href);
        DedupeStep(found, absolute);
        if absolute !in seen {
          seen := seen + {absolute};
          links := links + [absolute];
        }
        found := found + [absolute];
      }
    }
    assert hrefs[..|hrefs|] == hrefs;
  }
}
