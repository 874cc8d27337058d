/** The static resource registry: resources, templates, providers, and who subscribed to what. */
module Subscriptions {
  import opened Wrappers
  import opened Pager
  import opened Listing
  import opened Registries

  datatype Resource = Resource(uri: string, name: string)

  datatype Template = Template(uriTemplate: string, name: string)

  type Provider = nat

  /** The id of the subscriber in the context, or "default" when none or an empty one is there. */
  function SubscriberId(fromContext: Option<string>): string {
    if fromContext.None? || fromContext.value == "" then "default" else fromContext.value
  }

  /** The part of the registry the subscriptions depend on. */
  datatype Catalog = Catalog(
    resources: map<string, Resource>,
    providers: map<string, Provider>,
    subscribers: map<string, map<string, bool>>)

  datatype Op =
    | Register(resource: Resource, provider: Option<Provider>)
    | Subscribe(id: string, uri: string)
    | Unsubscribe(id: string, uri: string)

  function SubscribersOf(c: Catalog, uri: string): map<string, bool> {
    if uri in c.subscribers then c.subscribers[uri] else map[]
  }

  function Apply(c: Catalog, op: Op): Catalog {
    match op
    case Register(r, provider) =>
      if r.uri == "" then c
      else c.(resources := c.resources[r.uri := r],
              providers := if provider.Some? then c.providers[r.uri := provider.value] else c.providers)
    case Subscribe(id, uri) =>
      if uri !in c.resources then c
      else c.(subscribers := c.subscribers[uri := SubscribersOf(c, uri)[id := true]])
    case Unsubscribe(id, uri) =>
      if uri !in c.resources || uri !in c.subscribers then c
      else c.(subscribers := c.subscribers[uri := c.subscribers[uri] - {id}])
  }

  function Fold(ops: seq<Op>): Catalog {
    if ops == [] then Catalog(map[], map[], map[])
    else Apply(Fold(ops[..|ops| - 1]), ops[|ops| - 1])
  }

  // ---- History ----

  ghost predicate RegisteredBefore(ops: seq<Op>, n: nat, uri: string) {
    exists i :: 0 <= i < n <= |ops| && ops[i].Register? && ops[i].resource.uri == uri && uri != ""
  }

  /** A subscription or its end that takes effect: the resource was registered by then. */
  ghost predicate Effective(ops: seq<Op>, i: nat, op: Op) {
    i < |ops| && ops[i] == op && !op.Register? && RegisteredBefore(ops, i, op.uri)
  }

  /** The last effective operation of `id` on `uri` among the first `n` was to subscribe. */
  ghost predicate Active(ops: seq<Op>, n: nat, id: string, uri: string) {
    exists k: nat :: k < n && Effective(ops, k, Subscribe(id, uri)) &&
      forall i: nat | k < i < n :: !Effective(ops, i, Unsubscribe(id, uri))
  }

  lemma FoldStep(ops: seq<Op>, n: nat)
    requires 0 < n <= |ops|
    ensures Fold(ops[..n]) == Apply(Fold(ops[..n - 1]), ops[n - 1])
  {
    hide Apply;
    assert ops[..n][..n - 1] == ops[..n - 1];
  }

  lemma {:induction false} ResourcesByHistory(ops: seq<Op>, n: nat, uri: string)
    requires n <= |ops|
    ensures uri in Fold(ops[..n]).resources <==> RegisteredBefore(ops, n, uri)
  {
    if n > 0 {
      FoldStep(ops, n);
      ResourcesByHistory(ops, n - 1, uri);
    }
  }

  /** The last registration of a resource under `uri` among the first `n` operations; with `provided`,
      the last that came with a provider. */
  ghost predicate LastRegistered(ops: seq<Op>, n: nat, uri: string, provided: bool, k: nat) {
    && k < n <= |ops| && Registers(ops[k], uri, provided)
    && forall i :: k < i < n ==> !Registers(ops[i], uri, provided)
  }

  predicate Registers(op: Op, uri: string, provided: bool) {
    op.Register? && op.resource.uri == uri && uri != "" && (provided ==> op.provider.Some?)
  }

  /** A registered resource is the one registered last under its URI. */
  lemma {:induction false} ResourceByHistory(ops: seq<Op>, n: nat, uri: string)
    requires n <= |ops|
    ensures var resources := Fold(ops[..n]).resources;
            if uri in resources then
              exists k: nat :: LastRegistered(ops, n, uri, false, k) && resources[uri] == ops[k].resource
            else forall i :: 0 <= i < n ==> !Registers(ops[i], uri, false)
  {
    hide Fold;
    if n > 0 {
      FoldStep(ops, n);
      ResourceByHistory(ops, n - 1, uri);
      var before := Fold(ops[..n - 1]).resources;
      if Registers(ops[n - 1], uri, false) {
        assert LastRegistered(ops, n, uri, false, n - 1);
      } else if uri in before {
        var k: nat :| LastRegistered(ops, n - 1, uri, false, k) && before[uri] == ops[k].resource;
        assert LastRegistered(ops, n, uri, false, k);
      }
    } else {
      EmptyFold(ops);
    }
  }

  /** Its provider is the one given last; a registration without a provider leaves it in place. */
  lemma {:induction false} ProviderByHistory(ops: seq<Op>, n: nat, uri: string)
    requires n <= |ops|
    ensures var providers := Fold(ops[..n]).providers;
            if uri in providers then
              exists k: nat :: LastRegistered(ops, n, uri, true, k) && Some(providers[uri]) == ops[k].provider
            else forall i :: 0 <= i < n ==> !Registers(ops[i], uri, true)
  {
    hide Fold;
    if n > 0 {
      FoldStep(ops, n);
      ProviderByHistory(ops, n - 1, uri);
      var before := Fold(ops[..n - 1]).providers;
      if Registers(ops[n - 1], uri, true) {
        assert LastRegistered(ops, n, uri, true, n - 1);
      } else if uri in before {
        var k: nat :| LastRegistered(ops, n - 1, uri, true, k) && Some(before[uri]) == ops[k].provider;
        assert LastRegistered(ops, n, uri, true, k);
      }
    } else {
      EmptyFold(ops);
    }
  }

  lemma EmptyFold(ops: seq<Op>)
    ensures Fold(ops[..0]) == Catalog(map[], map[], map[])
  {
  }

  /** Providers and subscriber sets exist only for registered resources. */
  lemma {:induction false} IndexesAreRegistered(ops: seq<Op>, n: nat)
    requires n <= |ops|
    ensures var c := Fold(ops[..n]);
            c.providers.Keys <= c.resources.Keys && c.subscribers.Keys <= c.resources.Keys && "" !in c.resources
  {
    if n > 0 {
      FoldStep(ops, n);
      IndexesAreRegistered(ops, n - 1);
    }
  }

  lemma ActiveStep(ops: seq<Op>, n: nat, id: string, uri: string)
    requires n < |ops|
    ensures Active(ops, n + 1, id, uri) <==>
            || Effective(ops, n, Subscribe(id, uri))
            || (Active(ops, n, id, uri) && !Effective(ops, n, Unsubscribe(id, uri)))
  {
    hide Effective;
    if Active(ops, n, id, uri) && !Effective(ops, n, Unsubscribe(id, uri)) {
      var k: nat :| k < n && Effective(ops, k, Subscribe(id, uri)) &&
        forall i: nat | k < i < n :: !Effective(ops, i, Unsubscribe(id, uri));
      assert k < n + 1;
    }
  }

  /** After any sequence of operations, the subscribers of a resource are exactly the ids whose
      last effective operation on it was to subscribe. */
  lemma {:induction false} SubscribersByHistory(ops: seq<Op>, n: nat, id: string, uri: string)
    requires n <= |ops|
    ensures id in SubscribersOf(Fold(ops[..n]), uri) <==> Active(ops, n, id, uri)
  {
    hide RegisteredBefore, Active;
    if n > 0 {
      FoldStep(ops, n);
      SubscribersByHistory(ops, n - 1, id, uri);
      ResourcesByHistory(ops, n - 1, uri);
      ActiveStep(ops, n - 1, id, uri);
    } else {
      NobodyAtFirst(ops, id, uri);
    }
  }

  lemma NobodyAtFirst(ops: seq<Op>, id: string, uri: string)
    ensures !Active(ops, 0, id, uri)
  {
  }

  class StaticResourceRegistry {
    var resources: map<string, Resource>
    var resourceTemplates: map<string, Template>
    var providers: map<string, Provider>
    var subscribers: map<string, map<string, bool>>

    constructor ()
      ensures Valid() && View() == Fold([]) && resourceTemplates == map[]
    {
      resources := map[];
      resourceTemplates := map[];
      providers := map[];
      subscribers := map[];
    }

    ghost predicate Valid()
      reads this
    {
      "" !in resources && "" !in resourceTemplates &&
      providers.Keys <= resources.Keys && subscribers.Keys <= resources.Keys &&
      (forall uri | uri in resources :: resources[uri].uri == uri) &&
      (forall uri | uri in resourceTemplates :: resourceTemplates[uri].uriTemplate == uri)
    }

    function View(): Catalog
      reads this
    {
      Catalog(resources, providers, subscribers)
    }

    /** Registering a URI again replaces the resource and keeps its subscribers. */
    method RegisterResource(resource: Resource, provider: Option<Provider>) returns (err: Option<Error>)
      requires Valid()
      modifies this
      ensures Valid() && resourceTemplates == old(resourceTemplates)
      ensures View() == Apply(old(View()), Register(resource, provider))
      ensures err == if resource.uri == "" then Some(EmptyName) else None
    {
      if resource.uri == "" {
        return Some(EmptyName);
      }
      resources := resources[resource.uri := resource];
      if provider.Some? {
        providers := providers[resource.uri := provider.value];
      }
      err := None;
    }

    method RegisterResourceTemplate(template: Template) returns (err: Option<Error>)
      requires Valid()
      modifies this
      ensures Valid() && View() == old(View())
      ensures err == if template.uriTemplate == "" then Some(EmptyName) else None
      ensures resourceTemplates ==
              if err.None? then old(resourceTemplates)[template.uriTemplate := template] else old(resourceTemplates)
    {
      if template.uriTemplate == "" {
        return Some(EmptyName);
      }
      resourceTemplates := resourceTemplates[template.uriTemplate := template];
      err := None;
    }

    /** Which provider reads a resource, if any may. */
    method ReadResource(uri: string) returns (err: Option<Error>, provider: Option<Provider>)
      requires Valid()
      ensures err == if uri !in resources then Some(NotFound)
                     else if uri !in providers then Some(NoProvider) else None
      ensures provider == if err.None? && uri in providers then Some(providers[uri]) else None
    {
      if uri !in resources {
        return Some(NotFound), None;
      }
      if uri !in providers {
        return Some(NoProvider), None;
      }
      err, provider := None, Some(providers[uri]);
    }

    method SubscribeResource(fromContext: Option<string>, uri: string) returns (err: Option<Error>)
      requires Valid()
      modifies this
      ensures Valid() && resourceTemplates == old(resourceTemplates)
      ensures View() == Apply(old(View()), Subscribe(SubscriberId(fromContext), uri))
      ensures fromContext.Some? && fromContext.value != "" ==>
        View() == Apply(old(View()), Subscribe(fromContext.value, uri))
      ensures fromContext == None || fromContext == Some("") ==> View() == Apply(old(View()), Subscribe("default", uri))
      ensures err == if uri in old(resources) then None else Some(NotFound)
    {
      var subscriberId := "default";
      if fromContext.Some? && fromContext.value != "" {
        subscriberId := fromContext.value;
      }
      if uri !in resources {
        return Some(NotFound);
      }
      if uri !in subscribers {
        subscribers := subscribers[uri := map[]];
      }
      subscribers := subscribers[uri := subscribers[uri][subscriberId := true]];
      err := None;
    }

    method UnsubscribeResource(fromContext: Option<string>, uri: string) returns (err: Option<Error>)
      requires Valid()
      modifies this
      ensures Valid() && resourceTemplates == old(resourceTemplates)
      ensures View() == Apply(old(View()), Unsubscribe(SubscriberId(fromContext), uri))
      ensures fromContext.Some? && fromContext.value != "" ==>
        View() == Apply(old(View()), Unsubscribe(fromContext.value, uri))
      ensures fromContext == None || fromContext == Some("") ==> View() == Apply(old(View()), Unsubscribe("default", uri))
      ensures err == if uri in old(resources) then None else Some(NotFound)
    {
      var subscriberId := "default";
      if fromContext.Some? && fromContext.value != "" {
        subscriberId := fromContext.value;
      }
      if uri !in resources {
        return Some(NotFound);
      }
      if uri !in subscribers {
        return None;
      }
      subscribers := subscribers[uri := subscribers[uri] - {subscriberId}];
      err := None;
    }

    /** The subscribers of a resource, each once, in no particular order. */
    method GetSubscribers(uri: string) returns (ids: seq<string>)
      requires Valid()
      ensures Distinct(ids) && forall id :: id in ids <==> id in SubscribersOf(View(), uri)
    {
      if uri !in subscribers {
        return [];
      }
      ids := CollectNames(subscribers[uri]);
    }

    method ListResources(cursor: string) returns (result: Page<Resource>)
      requires Valid()
      ensures result == PageFrom(resources, cursor)
      ensures forall i, j :: 0 <= i < j < |result.items| ==> ComesBefore(result.items[i].uri, result.items[j].uri)
    {
      hide ComesBefore, PageFrom;
      var uris, next := PageNames(resources, cursor);
      var items := [];
      for i := 0 to |uris|
        invariant |items| == i && forall j :: 0 <= j < i ==> items[j] == resources[uris[j]]
      {
        items := items + [resources[uris[i]]];
      }
      result := Page(items, next);
      PageIs(resources, cursor, uris, items);
    }

    method ListResourceTemplates(cursor: string) returns (result: Page<Template>)
      requires Valid()
      ensures result == PageFrom(resourceTemplates, cursor)
      ensures forall i, j :: 0 <= i < j < |result.items| ==>
        ComesBefore(result.items[i].uriTemplate, result.items[j].uriTemplate)
    {
      hide ComesBefore, PageFrom;
      var uris, next := PageNames(resourceTemplates, cursor);
      var items := [];
      for i := 0 to |uris|
        invariant |items| == i && forall j :: 0 <= j < i ==> items[j] == resourceTemplates[uris[j]]
      {
        items := items + [resourceTemplates[uris[i]]];
      }
      result := Page(items, next);
      PageIs(resourceTemplates, cursor, uris, items);
    }
  }
}
