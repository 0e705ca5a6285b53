/** The model catalog behind the admin transactions of src/modules/ai/model-admin.ts: canonical
    models, provider routes, discoveries awaiting review and aliases. Every method is one
    serializable transaction; a failure leaves the tables as they were. */
module Catalog {
  import opened JsonValues

  type Id = nat

  datatype Model = Model(key: string, modality: string, enabled: bool, visible: bool, draft: bool, managed: bool,
                         defaultRoute: Option<Id>, updatedAt: int)
  datatype Route = Route(model: Option<Id>, provider: string, channel: Option<Id>, upstream: string, enabled: bool,
                         priority: int, updatedAt: int)
  datatype ReviewStatus = Unmapped | Mapped | Ignored
  datatype Discovery = Discovery(provider: string, channel: Id, upstream: string, suggested: Option<string>,
                                 override: Option<string>, status: ReviewStatus, suggestedModel: Option<Id>)
  datatype Source = Admin | AdminMapping | RouteMapping | OtherSource(name: string)
  datatype Alias = Alias(model: Id, modality: string, text: string, key: string, source: Source, confirmed: bool)

  datatype Error = NotFound | Conflict | InvalidRequest | DuplicateKey
  datatype Result<+T> = Success(value: T) | Failure(error: Error)

  /** The fields an administrator may set; `None` is an absent property. */
  datatype ModelEdit = ModelEdit(enabled: Option<bool>, visible: Option<bool>, draft: Option<bool>,
                                 managed: Option<bool>, defaultRoute: Option<Option<Id>>)
  datatype RouteEdit = RouteEdit(enabled: Option<bool>, priority: Option<int>)

  function Or<T>(edit: Option<T>, current: T): T {
    if edit.Some? then edit.value else current
  }

  function EditedModel(current: Model, edit: ModelEdit, now: int): Model {
    current.(enabled := Or(edit.enabled, current.enabled), visible := Or(edit.visible, current.visible),
             draft := Or(edit.draft, current.draft), managed := Or(edit.managed, current.managed),
             defaultRoute := Or(edit.defaultRoute, current.defaultRoute), updatedAt := now)
  }

  function EditedRoute(current: Route, edit: RouteEdit, now: int): Route {
    current.(enabled := Or(edit.enabled, current.enabled), priority := Or(edit.priority, current.priority),
             updatedAt := now)
  }

  const MODALITIES := {"chat", "image", "video", "audio"}

  /** `routeAliasSources` */
  predicate FromRoute(source: Source) {
    source.AdminMapping? || source.RouteMapping?
  }

  /** An alias an administrator keeps, or one of another origin: no mapping maintains it. */
  predicate ByHand(source: Source) {
    source == Admin || source.OtherSource?
  }

  predicate KnownModality(modality: Option<string>) {
    modality in {Some("chat"), Some("image"), Some("video"), Some("audio")}
  }

  /** The modality a discovery may be mapped under: what the administrator has set, or else what the
      provider suggests; texts that are no modality count for nothing. */
  predicate Confirmed(discovery: Discovery, modality: string) {
    if KnownModality(discovery.override) then discovery.override == Some(modality)
    else KnownModality(discovery.suggested) && discovery.suggested == Some(modality)
  }

  lemma EffectiveIsConfirmed(discovery: Discovery, modality: string)
    ensures EffectiveModality(discovery) == Some(modality) <==> Confirmed(discovery, modality)
  {
  }

  /** Each property the administrator named has the new value, and every other the old one. */
  ghost predicate TookModelEdit(before: Model, after: Model, edit: ModelEdit, now: int) {
    && after.key == before.key && after.modality == before.modality && after.updatedAt == now
    && (if edit.enabled.Some? then after.enabled == edit.enabled.value else after.enabled == before.enabled)
    && (if edit.visible.Some? then after.visible == edit.visible.value else after.visible == before.visible)
    && (if edit.draft.Some? then after.draft == edit.draft.value else after.draft == before.draft)
    && (if edit.managed.Some? then after.managed == edit.managed.value else after.managed == before.managed)
    && (if edit.defaultRoute.Some? then after.defaultRoute == edit.defaultRoute.value
        else after.defaultRoute == before.defaultRoute)
  }

  lemma ModelEditTaken(current: Model, edit: ModelEdit, now: int)
    ensures TookModelEdit(current, EditedModel(current, edit, now), edit, now)
  {
  }

  ghost predicate TookRouteEdit(before: Route, after: Route, edit: RouteEdit, now: int) {
    && after.model == before.model && SameEndpoint(before, after) && after.updatedAt == now
    && (if edit.enabled.Some? then after.enabled == edit.enabled.value else after.enabled == before.enabled)
    && (if edit.priority.Some? then after.priority == edit.priority.value else after.priority == before.priority)
  }

  /** `effectiveDiscoveryModality` */
  function EffectiveModality(discovery: Discovery): Option<string> {
    if discovery.override.Some? && discovery.override.value in MODALITIES then discovery.override
    else if discovery.suggested.Some? && discovery.suggested.value in MODALITIES then discovery.suggested
    else None
  }

  // ---- what every transaction keeps ----------------------------------------------------------

  /** A default route is an enabled route of its own model. */
  ghost predicate DefaultsOwned(models: map<Id, Model>, routes: map<Id, Route>) {
    forall m :: m in models && models[m].defaultRoute.Some? ==>
      EnabledRouteOf(routes, m, models[m].defaultRoute.value)
  }

  /** An enabled route is mapped, and mapped routes point at existing models. */
  ghost predicate EnabledMapped(models: map<Id, Model>, routes: map<Id, Route>) {
    forall r :: r in routes ==>
      (routes[r].enabled ==> routes[r].model.Some?) && (routes[r].model.Some? ==> routes[r].model.value in models)
  }

  /** The discovery's own route: the same provider, channel and upstream id. */
  predicate NamedBy(discovery: Discovery, route: Route) {
    At(route, discovery.provider, discovery.channel, discovery.upstream)
  }

  /** The route a discovery under review names is absent or unmapped. */
  ghost predicate ReviewIsFree(routes: map<Id, Route>, discoveries: map<Id, Discovery>) {
    forall d, r ::
      d in discoveries && r in routes && discoveries[d].status.Unmapped? && NamedBy(discoveries[d], routes[r])
      ==> routes[r].model.None?
  }

  predicate At(route: Route, provider: string, channel: Id, upstream: string) {
    route.provider == provider && route.channel == Some(channel) && route.upstream == upstream
  }

  predicate Concerns(discovery: Discovery, channel: Id, upstream: string) {
    discovery.channel == channel && discovery.upstream == upstream
  }

  predicate SameEndpoint(left: Route, right: Route) {
    left.provider == right.provider && left.channel == right.channel && left.upstream == right.upstream
  }

  /** The unique indexes on routes and discoveries (a null channel is never equal to another). */
  ghost predicate RoutesUnique(routes: map<Id, Route>) {
    forall r, q :: r in routes && q in routes && r != q && routes[r].channel.Some? ==>
      !SameEndpoint(routes[r], routes[q])
  }

  ghost predicate DiscoveriesUnique(discoveries: map<Id, Discovery>) {
    forall d, e :: d in discoveries && e in discoveries && d != e ==>
                     discoveries[d].channel != discoveries[e].channel
                     || discoveries[d].upstream != discoveries[e].upstream
  }

  ghost predicate ChannelsExist(channels: map<Id, int>, routes: map<Id, Route>, discoveries: map<Id, Discovery>) {
    && (forall r :: r in routes && routes[r].channel.Some? ==> routes[r].channel.value in channels)
    && (forall d :: d in discoveries ==> discoveries[d].channel in channels)
  }

  /** (modality, key) names one alias, and an alias has the modality of the model it points at. */
  ghost predicate AliasesSound(models: map<Id, Model>, aliases: map<Id, Alias>) {
    && (forall a :: a in aliases ==>
        aliases[a].model in models && models[aliases[a].model].modality == aliases[a].modality)
    && (forall a, b :: a in aliases && b in aliases && a != b ==>
                         aliases[a].modality != aliases[b].modality || aliases[a].key != aliases[b].key)
  }

  ghost predicate KeysUnique(models: map<Id, Model>) {
    forall m, n :: m in models && n in models && models[m].key == models[n].key ==> m == n
  }

  /** Aliases that no route mapping maintains are the same before and after. */
  ghost predicate ManualAliasesKept(before: map<Id, Alias>, after: map<Id, Alias>) {
    && (forall a :: a in before && ByHand(before[a].source) ==> a in after && after[a] == before[a])
    && (forall a :: a in after && ByHand(after[a].source) ==> a in before && before[a] == after[a])
  }

  /** The models differ in defaults, flags and stamps only, not in what names them. */
  ghost predicate SameNames(before: map<Id, Model>, after: map<Id, Model>) {
    before.Keys == after.Keys
    && forall m :: m in before ==> after[m].key == before[m].key && after[m].modality == before[m].modality
  }

  // ---- the best enabled route ----------------------------------------------------------------

  predicate EnabledRouteOf(routes: map<Id, Route>, model: Id, id: Id) {
    id in routes && routes[id].model == Some(model) && routes[id].enabled
  }

  predicate Candidate(routes: map<Id, Route>, model: Id, excluded: Id, id: Id) {
    EnabledRouteOf(routes, model, id) && id != excluded
  }

  /** `orderBy: [{ priority: 'asc' }, { id: 'asc' }]` */
  predicate Before(routes: map<Id, Route>, left: Id, right: Id)
    requires left in routes && right in routes
  {
    routes[left].priority < routes[right].priority || (routes[left].priority == routes[right].priority && left <= right)
  }

  ghost predicate IsBest(routes: map<Id, Route>, model: Id, excluded: Id, best: Option<Id>) {
    match best
    case None => forall id :: !Candidate(routes, model, excluded, id)
    case Some(b) =>
      && Candidate(routes, model, excluded, b)
      && forall id :: Candidate(routes, model, excluded, id) ==> Before(routes, b, id)
  }

  /** There is one best route, so the repaired default is determined by the routes alone. */
  lemma BestIsUnique(routes: map<Id, Route>, model: Id, excluded: Id, a: Option<Id>, b: Option<Id>)
    requires IsBest(routes, model, excluded, a) && IsBest(routes, model, excluded, b)
    ensures a == b
  {
  }

  lemma BestIsLeast(routes: map<Id, Route>, model: Id, excluded: Id, best: Option<Id>)
    requires IsBest(routes, model, excluded, best)
    ensures forall id ::
              && id in routes && id != excluded && routes[id].model == Some(model) && routes[id].enabled
              && best != Some(id) ==>
                && best.Some? && best.value in routes && best.value != excluded
                && routes[best.value].model == Some(model) && routes[best.value].enabled
                && (routes[best.value].priority < routes[id].priority
                    || (routes[best.value].priority == routes[id].priority && best.value < id))
  {
    forall id | && id in routes && id != excluded && routes[id].model == Some(model) && routes[id].enabled
                && best != Some(id)
      ensures best.Some? && Before(routes, best.value, id)
    {
      assert Candidate(routes, model, excluded, id);
    }
  }

  /** What `repairDefaultRoute` makes of the models. */
  ghost predicate Repaired(before: map<Id, Model>, after: map<Id, Model>, routes: map<Id, Route>, model: Id, left: Id,
                           now: int) {
    if model in before && before[model].defaultRoute == Some(left) then
      && after.Keys == before.Keys
      && IsBest(routes, model, left, after[model].defaultRoute)
      && after == before[model := before[model].(defaultRoute := after[model].defaultRoute, updatedAt := now)]
    else
      after == before
  }

  /** The heart of the default-route invariant: a route leaves a model (it is disabled, unmapped or
      moved to another model), then that model's default is repaired. Nothing else needs repair,
      because no other model can have had this route as its default. */
  lemma LeavingKeepsDefaults(models: map<Id, Model>, routes: map<Id, Route>, models': map<Id, Model>,
                             routes': map<Id, Route>, model: Id, left: Id, now: int)
    requires DefaultsOwned(models, routes) && EnabledMapped(models, routes)
    requires left in routes && routes[left].model == Some(model)
    requires left in routes' && routes' == routes[left := routes'[left]]
    requires routes'[left].enabled ==> routes'[left].model.Some?
    requires routes'[left].model.Some? ==> routes'[left].model.value in models
    requires Repaired(models, models', routes', model, left, now)
    ensures DefaultsOwned(models', routes') && EnabledMapped(models', routes')
    ensures SameNames(models, models')
  {
  }

  /** No route leaves: this one stays with its model, or was not mapped, and no default changes. */
  lemma StayingKeepsDefaults(models: map<Id, Model>, routes: map<Id, Route>, models': map<Id, Model>,
                             routes': map<Id, Route>, id: Id)
    requires DefaultsOwned(models, routes) && EnabledMapped(models, routes)
    requires models.Keys == models'.Keys
    requires forall m :: m in models ==> models'[m].defaultRoute == models[m].defaultRoute
    requires id in routes' && routes' == routes[id := routes'[id]]
    requires routes'[id].model.Some? ==> routes'[id].model.value in models
    requires routes'[id].enabled ==> routes'[id].model.Some?
    requires id in routes && routes[id].enabled ==> routes'[id].enabled && routes'[id].model == routes[id].model
    ensures DefaultsOwned(models', routes') && EnabledMapped(models', routes')
  {
  }

  lemma MappedExists(models: map<Id, Model>, routes: map<Id, Route>, id: Id)
    requires EnabledMapped(models, routes) && id in routes
    ensures routes[id].model.Some? ==> routes[id].model.value in models
    ensures routes[id].enabled ==> routes[id].model.Some?
  {
  }

  lemma NamesKept(models: map<Id, Model>, models': map<Id, Model>, aliases: map<Id, Alias>)
    requires SameNames(models, models') && KeysUnique(models) && AliasesSound(models, aliases)
    ensures KeysUnique(models') && AliasesSound(models', aliases)
  {
  }

  /** Storing an alias of a model under its modality and a key no other alias has. */
  lemma AliasStored(models: map<Id, Model>, aliases: map<Id, Alias>, id: Id, alias: Alias)
    requires AliasesSound(models, aliases) && alias.model in models && models[alias.model].modality == alias.modality
    requires forall a :: a in aliases && a != id ==>
               aliases[a].modality != alias.modality || aliases[a].key != alias.key
    ensures AliasesSound(models, aliases[id := alias])
  {
  }

  lemma AliasRemoved(models: map<Id, Model>, aliases: map<Id, Alias>, ids: set<Id>)
    requires AliasesSound(models, aliases)
    ensures AliasesSound(models, aliases - ids)
  {
  }

  /** Under the unique index the alias a lookup finds is the only one of its name. */
  lemma AliasIsOnly(models: map<Id, Model>, aliases: map<Id, Alias>, id: Id)
    requires AliasesSound(models, aliases) && id in aliases
    ensures forall a :: a in aliases && a != id ==>
              aliases[a].modality != aliases[id].modality || aliases[a].key != aliases[id].key
  {
  }

  // ---- the tables ----------------------------------------------------------------------------

  class Tables {
    const aliasKey: string -> string
    const trim: string -> string
    var channels: map<Id, int>
    var models: map<Id, Model>
    var routes: map<Id, Route>
    var discoveries: map<Id, Discovery>
    var aliases: map<Id, Alias>

    constructor (aliasKey: string -> string, trim: string -> string)
      ensures Valid() && models == map[] && routes == map[] && discoveries == map[] && aliases == map[]
    {
      this.aliasKey, this.trim := aliasKey, trim;
      channels, models, routes, discoveries, aliases := map[], map[], map[], map[], map[];
    }

    ghost predicate Valid()
      reads this
    {
      && RoutingSound()
      && KeysUnique(models) && AliasesSound(models, aliases)
    }

    ghost predicate RoutingSound()
      reads this
    {
      && DefaultsOwned(models, routes) && EnabledMapped(models, routes)
      && ReviewIsFree(routes, discoveries)
      && RoutesUnique(routes) && DiscoveriesUnique(discoveries) && ChannelsExist(channels, routes, discoveries)
    }

    twostate predicate Unchanged()
      reads this
    {
      && channels == old(channels) && models == old(models) && routes == old(routes)
      && discoveries == old(discoveries) && aliases == old(aliases)
    }

    /** `bestEnabledRouteId` */
    method BestEnabledRouteId(model: Id, excluded: Id) returns (best: Option<Id>)
      ensures IsBest(routes, model, excluded, best)
      ensures forall id ::
                && id in routes && id != excluded && routes[id].model == Some(model) && routes[id].enabled
                && best != Some(id) ==>
                  && best.Some? && best.value in routes && best.value != excluded
                  && routes[best.value].model == Some(model) && routes[best.value].enabled
                  && (routes[best.value].priority < routes[id].priority
                      || (routes[best.value].priority == routes[id].priority && best.value < id))
    {
      best := None;
      var rest := routes.Keys;
      while rest != {}
        invariant rest <= routes.Keys
        invariant best.Some? ==> Candidate(routes, model, excluded, best.value) && best.value !in rest
        invariant forall id :: Candidate(routes, model, excluded, id) && id !in rest ==>
                                 best.Some? && Before(routes, best.value, id)
        decreases rest
      {
        var id :| id in rest;
        if Candidate(routes, model, excluded, id) && (best.None? || Before(routes, id, best.value)) {
          best := Some(id);
        }
        rest := rest - {id};
      }
      BestIsLeast(routes, model, excluded, best);
    }

    /** `repairDefaultRoute`; the result is the replacement it reports. */
    method RepairDefaultRoute(model: Id, left: Id, now: int) returns (replacement: Option<Id>)
      modifies this`models
      ensures Repaired(old(models), models, routes, model, left, now)
      ensures var leaves := model in old(models) && old(models)[model].defaultRoute == Some(left);
              replacement == if leaves then models[model].defaultRoute else None
    {
      if model !in models || models[model].defaultRoute != Some(left) {
        return None;
      }
      replacement := BestEnabledRouteId(model, left);
      models := models[model := models[model].(defaultRoute := replacement, updatedAt := now)];
    }

    method ModelByKey(key: string) returns (found: Option<Id>)
      ensures found.Some? ==> found.value in models && models[found.value].key == key
      ensures found.None? ==> forall m :: m in models ==> models[m].key != key
    {
      if m :| m in models && models[m].key == key {
        return Some(m);
      }
      found := None;
    }

    method AliasByKey(modality: string, key: string) returns (found: Option<Id>)
      ensures found.Some? ==>
                found.value in aliases && aliases[found.value].modality == modality
                && aliases[found.value].key == key
      ensures found.None? ==> forall a :: a in aliases ==> aliases[a].modality != modality || aliases[a].key != key
    {
      if a :| a in aliases && aliases[a].modality == modality && aliases[a].key == key {
        return Some(a);
      }
      found := None;
    }

    /** `updateAdminAiModel`: the default route may be set to an enabled route of the model only. */
    method UpdateModel(key: string, expected: Option<int>, edit: ModelEdit, now: int) returns (result: Result<Id>)
      requires Valid()
      modifies this`models
      ensures Valid()
      ensures result.Failure? ==> Unchanged()
      ensures result == Failure(NotFound) <==> forall m :: m in old(models) ==> old(models)[m].key != key
      ensures forall m :: m in old(models) && old(models)[m].key == key ==>
                var stale := expected.Some? && expected.value != old(models)[m].updatedAt;
                var foreign := edit.defaultRoute.Some? && edit.defaultRoute.value.Some?
                    && !EnabledRouteOf(routes, m, edit.defaultRoute.value.value);
                if stale then result == Failure(Conflict)
                else if foreign then result == Failure(InvalidRequest)
                else
                  && result == Success(m) && m in models && models == old(models)[m := models[m]]
                  && TookModelEdit(old(models)[m], models[m], edit, now)
    {
      hide TookModelEdit, EditedModel, RoutesUnique, DiscoveriesUnique, ReviewIsFree, ChannelsExist, AliasesSound;
      var found := ModelByKey(key);
      if found.None? {
        return Failure(NotFound);
      }
      var m := found.value;
      var current := models[m];
      if expected.Some? && expected.value != current.updatedAt {
        return Failure(Conflict);
      }
      if edit.defaultRoute.Some? && edit.defaultRoute.value.Some? {
        if !EnabledRouteOf(routes, m, edit.defaultRoute.value.value) {
          return Failure(InvalidRequest);
        }
      }
      ModelEditTaken(current, edit, now);
      models := models[m := EditedModel(current, edit, now)];
      NamesKept(old(models), models, aliases);
      result := Success(m);
    }

    /** `updateAdminAiRoute`; `configurationOk` stands for its checks of adapters, execution and capabilities. */
    method UpdateRoute(id: Id, expected: Option<int>, edit: RouteEdit, configurationOk: bool, now: int)
        returns (result: Result<()>)
      requires Valid()
      modifies this`models, this`routes
      ensures Valid()
      ensures result.Failure? ==> Unchanged()
      ensures result == Failure(NotFound) <==> id !in old(routes)
      ensures id in old(routes) ==>
                var route := old(routes)[id];
                if expected.Some? && expected.value != route.updatedAt then result == Failure(Conflict)
                else if (edit.enabled == Some(true) && route.model.None?) || !configurationOk
                then result == Failure(InvalidRequest)
                else
                  && result == Success(())
                  && id in routes && routes == old(routes)[id := routes[id]]
                  && TookRouteEdit(route, routes[id], edit, now)
                  && (edit.enabled == Some(true) ==>
                        models == old(models)[route.model.value :=
                                              old(models)[route.model.value].(managed := true, updatedAt := now)])
                  && (edit.enabled == Some(false) && route.enabled ==>
                      Repaired(old(models), models, routes, route.model.value, id, now))
                  && (edit.enabled != Some(true) && !(edit.enabled == Some(false) && route.enabled) ==>
                      models == old(models))
    {
      hide RoutesUnique, ReviewIsFree, ChannelsExist, DiscoveriesUnique, AliasesSound, KeysUnique, DefaultsOwned,
           EnabledMapped, IsBest;
      if id !in routes {
        return Failure(NotFound);
      }
      var current := routes[id];
      MappedExists(models, routes, id);
      if expected.Some? && expected.value != current.updatedAt {
        return Failure(Conflict);
      }
      if edit.enabled == Some(true) && current.model.None? {
        return Failure(InvalidRequest);
      }
      if !configurationOk {
        return Failure(InvalidRequest);
      }
      routes := routes[id := EditedRoute(current, edit, now)];
      if edit.enabled == Some(true) && current.model.Some? {
        var m := current.model.value;
        models := models[m := models[m].(managed := true, updatedAt := now)];
      }
      if edit.enabled == Some(false) && current.enabled && current.model.Some? {
        var _ := RepairDefaultRoute(current.model.value, id, now);
        LeavingKeepsDefaults(old(models), old(routes), models, routes, current.model.value, id, now);
      } else {
        StayingKeepsDefaults(old(models), old(routes), models, routes, id);
      }
      NamesKept(old(models), models, aliases);
      EndpointsKept(old(routes), routes, discoveries, channels, id);
      result := Success(());
    }

    /** `updateRouteGeneratedAlias`: the alias of this upstream id follows the route from `source`
        to `target`, unless an administrator owns it. */
    method UpdateRouteGeneratedAlias(upstream: string, source: Id, target: Option<Id>, newId: Id)
        returns (result: Result<()>)
      requires AliasesSound(models, aliases) && (target.Some? ==> newId !in aliases)
      requires source in models
      requires target.Some? ==> target.value in models && models[target.value].modality == models[source].modality
      modifies this`aliases
      ensures AliasesSound(models, aliases) && ManualAliasesKept(old(aliases), aliases)
      ensures result.Failure? ==> result.error.Conflict? && aliases == old(aliases)
      ensures OthersKept(old(aliases), aliases, models[source].modality, aliasKey(upstream))
      ensures aliasKey(upstream) == "" ==> aliases == old(aliases) && result.Success?
      ensures result.Success? && aliasKey(upstream) != "" && target.Some? ==>
                PointsAt(aliases, models[source].modality, aliasKey(upstream), target.value)
      ensures result.Success? && target.Some? ==>
                GeneratedFor(old(aliases), aliases, target.value, models[source].modality, upstream, aliasKey(upstream))
      ensures result.Success? && aliasKey(upstream) != "" && target.None? ==>
                OnlyManual(aliases, models[source].modality, aliasKey(upstream))
      ensures result.Failure? <==>
                AliasBlocks(old(aliases), models[source].modality, aliasKey(upstream), source, target)
    {
      hide AliasesSound, GeneratedFor;
      var key := aliasKey(upstream);
      if target.Some? {
        NothingGenerated(aliases, target.value, models[source].modality, upstream, key);
      }
      if key == "" {
        return Success(());
      }
      var modality := models[source].modality;
      var found := AliasByKey(modality, key);
      if found.Some? {
        AliasIsOnly(models, aliases, found.value);
      }
      if found.Some? && FromRoute(aliases[found.value].source) {
        if aliases[found.value].model != source {
          return Failure(Conflict);
        }
        if target.Some? {
          OneGenerated(aliases, found.value,
                       Alias(target.value, models[target.value].modality, upstream, key, RouteMapping, true));
          AliasStored(models, aliases, found.value,
                      Alias(target.value, models[target.value].modality, upstream, key, RouteMapping, true));
          aliases := aliases[found.value :=
                             Alias(target.value, models[target.value].modality, upstream, key, RouteMapping, true)];
        } else {
          AliasRemoved(models, aliases, {found.value});
          aliases := aliases - {found.value};
        }
        return Success(());
      }
      if found.Some? && target.Some? && aliases[found.value].model != target.value {
        return Failure(Conflict);
      }
      if found.Some? || target.None? {
        return Success(());
      }
      OneGenerated(aliases, newId,
                   Alias(target.value, models[target.value].modality, upstream, key, RouteMapping, true));
      AliasStored(models, aliases, newId,
                  Alias(target.value, models[target.value].modality, upstream, key, RouteMapping, true));
      aliases := aliases[newId :=
                         Alias(target.value, models[target.value].modality, upstream, key, RouteMapping, true)];
      result := Success(());
    }

    /** `remapAdminAiRoute` */
    method Remap(id: Id, targetKey: string, currentModel: Id, expected: int, freshAlias: Id, now: int)
        returns (result: Result<()>)
      requires Valid() && freshAlias !in aliases
      modifies this`models, this`routes, this`discoveries, this`aliases
      ensures Valid() && ManualAliasesKept(old(aliases), aliases)
      ensures result.Failure? ==> Unchanged()
      ensures result == Failure(NotFound) <==>
                || id !in old(routes) || old(routes)[id].model.None?
                || forall target :: target in old(models) ==> old(models)[target].key != targetKey
      ensures forall target :: target in old(models) && old(models)[target].key == targetKey
                               && id in old(routes) && old(routes)[id].model.Some? ==>
                var (route, modality) := (old(routes)[id], old(models)[target].modality);
                if route.model != Some(currentModel) || route.updatedAt != expected then result == Failure(Conflict)
                else if old(models)[currentModel].modality != modality then result == Failure(InvalidRequest)
                else if target == currentModel then result.Success?
                else if AliasBlocks(old(aliases), modality, aliasKey(route.upstream), currentModel, Some(target))
                then result == Failure(Conflict)
                else result.Success?
      ensures result.Success? ==>
                && id in old(routes)
                && old(routes)[id].model == Some(currentModel) && old(routes)[id].updatedAt == expected
                && exists target :: target in old(models) && old(models)[target].key == targetKey
                     && old(models)[target].modality == old(models)[currentModel].modality
                     && if target == currentModel then Unchanged() else
                          && routes == old(routes)[id := old(routes)[id].(model := Some(target), updatedAt := now)]
                          && Repaired(old(models), models, routes, currentModel, id, now)
                          && ReviewedFor(old(discoveries), discoveries, old(routes)[id], target)
                          && OthersKept(old(aliases), aliases, old(models)[target].modality,
                                        aliasKey(old(routes)[id].upstream))
                          && (aliasKey(old(routes)[id].upstream) != "" ==>
                                PointsAt(aliases, old(models)[target].modality, aliasKey(old(routes)[id].upstream),
                                         target))
                          && GeneratedFor(old(aliases), aliases, target, old(models)[target].modality,
                                          old(routes)[id].upstream, aliasKey(old(routes)[id].upstream))
    {
      hide AliasesSound, DefaultsOwned, KeysUnique, RoutesUnique, DiscoveriesUnique, EnabledMapped, ReviewIsFree,
           ChannelsExist, IsBest, GeneratedFor;
      if id !in routes || routes[id].model.None? {
        return Failure(NotFound);
      }
      var found := ModelByKey(targetKey);
      if found.None? {
        return Failure(NotFound);
      }
      var route, target := routes[id], found.value;
      var source := route.model.value;
      MappedExists(models, routes, id);
      OneModelPerKey(models, target);
      if source != currentModel || route.updatedAt != expected {
        return Failure(Conflict);
      }
      if models[source].modality != models[target].modality {
        return Failure(InvalidRequest);
      }
      if source == target {
        return Success(());
      }
      var renamed := UpdateRouteGeneratedAlias(route.upstream, source, Some(target), freshAlias);
      if renamed.Failure? {
        return Failure(renamed.error);
      }
      routes := routes[id := route.(model := Some(target), updatedAt := now)];
      var _ := RepairDefaultRoute(source, id, now);
      LeavingKeepsDefaults(old(models), old(routes), models, routes, source, id, now);
      NamesKept(old(models), models, aliases);
      ReviewedForTarget(discoveries, route, target);
      discoveries := Reviewed(discoveries, route, Some(target));
      EndpointsKept(old(routes), routes, old(discoveries), channels, id);
      ReviewKept(old(discoveries), old(routes), routes, channels, id, Some(target));
      result := Success(());
    }

    method RouteOf(provider: string, channel: Id, upstream: string) returns (found: Option<Id>)
      ensures found.Some? ==> found.value in routes && At(routes[found.value], provider, channel, upstream)
      ensures found.None? ==> forall r :: r in routes ==> !At(routes[r], provider, channel, upstream)
    {
      if r :| r in routes && At(routes[r], provider, channel, upstream) {
        return Some(r);
      }
      found := None;
    }

    method DiscoveryOf(channel: Id, upstream: string) returns (found: Option<Id>)
      ensures found.Some? ==> found.value in discoveries && Concerns(discoveries[found.value], channel, upstream)
      ensures found.None? ==> forall d :: d in discoveries ==> !Concerns(discoveries[d], channel, upstream)
    {
      if d :| d in discoveries && Concerns(discoveries[d], channel, upstream) {
        return Some(d);
      }
      found := None;
    }

    /** The upsert of `unmapAdminAiRoute`: the detached route's discovery awaits review again. */
    method PutBackInReview(id: Id, modality: string, newDiscovery: Id)
      requires id in routes && routes[id].model.None? && routes[id].channel.Some? && newDiscovery !in discoveries
      requires ReviewIsFree(routes, discoveries) && RoutesUnique(routes) && DiscoveriesUnique(discoveries)
               && ChannelsExist(channels, routes, discoveries)
      modifies this`discoveries
      ensures ReviewIsFree(routes, discoveries) && DiscoveriesUnique(discoveries)
              && ChannelsExist(channels, routes, discoveries)
      ensures BackInReview(old(discoveries), discoveries, routes[id], modality)
    {
      var route := routes[id];
      var found := DiscoveryOf(route.channel.value, route.upstream);
      var d, kept := newDiscovery, None;
      if found.Some? {
        d, kept := found.value, discoveries[found.value].override;
      }
      var back := Discovery(route.provider, route.channel.value, route.upstream, Some(modality), kept, Unmapped, None);
      forall r | r in routes && NamedBy(back, routes[r])
        ensures routes[r].model.None?
      {
        assert SameEndpoint(routes[id], routes[r]);
      }
      DiscoveryStored(routes, discoveries, channels, d, back);
      discoveries := discoveries[d := back];
    }

    /** `unmapAdminAiRoute`: the route is detached and, if its channel still exists, put back in review. */
    method Unmap(id: Id, currentModel: Id, expected: int, newDiscovery: Id, now: int) returns (result: Result<()>)
      requires Valid() && newDiscovery !in discoveries
      modifies this`models, this`routes, this`discoveries, this`aliases
      ensures Valid() && ManualAliasesKept(old(aliases), aliases)
      ensures result.Failure? ==> Unchanged()
      ensures result == Failure(NotFound) <==> id !in old(routes) || old(routes)[id].model.None?
      ensures id in old(routes) && old(routes)[id].model.Some? ==>
                var route := old(routes)[id];
                if route.model != Some(currentModel) || route.updatedAt != expected
                   || AliasBlocks(old(aliases), old(models)[currentModel].modality, aliasKey(route.upstream),
                                  currentModel, None)
                then result == Failure(Conflict) else result.Success?
      ensures result.Success? ==>
                && id in old(routes)
                && old(routes)[id].model == Some(currentModel) && old(routes)[id].updatedAt == expected
                && routes == old(routes)[id := old(routes)[id].(model := None, enabled := false, updatedAt := now)]
                && Repaired(old(models), models, routes, currentModel, id, now)
                && (if old(routes)[id].channel.Some?
                    then BackInReview(old(discoveries), discoveries, old(routes)[id],
                                      old(models)[currentModel].modality)
                    else discoveries == old(discoveries))
                && OthersKept(old(aliases), aliases, old(models)[currentModel].modality,
                              aliasKey(old(routes)[id].upstream))
                && (aliasKey(old(routes)[id].upstream) != "" ==>
                    OnlyManual(aliases, old(models)[currentModel].modality, aliasKey(old(routes)[id].upstream)))
    {
      hide AliasesSound, DefaultsOwned, KeysUnique, RoutesUnique, DiscoveriesUnique, EnabledMapped, ReviewIsFree,
           ChannelsExist, IsBest;
      if id !in routes || routes[id].model.None? {
        return Failure(NotFound);
      }
      var route := routes[id];
      var source := route.model.value;
      MappedExists(models, routes, id);
      if source != currentModel || route.updatedAt != expected {
        return Failure(Conflict);
      }
      var modality := models[source].modality;
      var renamed := UpdateRouteGeneratedAlias(route.upstream, source, None, 0);
      if renamed.Failure? {
        return Failure(renamed.error);
      }
      routes := routes[id := route.(model := None, enabled := false, updatedAt := now)];
      var _ := RepairDefaultRoute(source, id, now);
      LeavingKeepsDefaults(old(models), old(routes), models, routes, source, id, now);
      NamesKept(old(models), models, aliases);
      EndpointsKept(old(routes), routes, old(discoveries), channels, id);
      DetachedIsFree(old(routes), routes, discoveries, id);
      if route.channel.Some? {
        PutBackInReview(id, modality, newDiscovery);
      }
      result := Success(());
    }

    /** `mapDiscoveryToCanonicalTransaction`: no default route is lost, although the route it maps is
        disabled without a repair. */
    method MapDiscovery(id: Id, key: string, newRoute: Id, newAlias: Id, now: int) returns (result: Result<Id>)
      requires Valid() && newRoute !in routes && newAlias !in aliases
      modifies this`routes, this`discoveries, this`aliases
      ensures Valid() && ManualAliasesKept(old(aliases), aliases)
      ensures result.Failure? ==> Unchanged()
      ensures result == Failure(NotFound) <==>
                id !in old(discoveries) || forall m :: m in models ==> models[m].key != key
      ensures forall m :: id in old(discoveries) && m in models && models[m].key == key ==>
                var discovery := old(discoveries)[id];
                if !discovery.status.Unmapped? then result == Failure(Conflict)
                else if !Confirmed(discovery, models[m].modality) then result == Failure(InvalidRequest)
                else if TakenByHand(old(aliases), models[m].modality, aliasKey(discovery.upstream), m)
                then result == Failure(Conflict)
                else result.Success?
      ensures result.Success? ==>
                && id in old(discoveries) && old(discoveries)[id].status.Unmapped?
                && var (r, discovery) := (result.value, old(discoveries)[id]);
                && r in routes && routes[r].model.Some? && routes[r].model.value in models
                && var m := routes[r].model.value;
                && models[m].key == key && Confirmed(discovery, models[m].modality)
                && NamedBy(discovery, routes[r]) && !routes[r].enabled && routes[r].updatedAt == now
                && routes[r].priority == (if r in old(routes) then old(routes)[r].priority
                                          else channels[discovery.channel])
                && (r !in old(routes) ==> forall q :: q in old(routes) ==> !NamedBy(discovery, old(routes)[q]))
                && routes == old(routes)[r := routes[r]]
                && discoveries == old(discoveries)[id := discovery.(status := Mapped, suggestedModel := Some(m))]
                && OthersKept(old(aliases), aliases, models[m].modality, aliasKey(discovery.upstream))
                && PointsAt(aliases, models[m].modality, aliasKey(discovery.upstream), m)
                && GeneratedFor(old(aliases), aliases, m, models[m].modality, discovery.upstream,
                                aliasKey(discovery.upstream))
    {
      hide AliasesSound, DefaultsOwned, KeysUnique, RoutesUnique, DiscoveriesUnique, EnabledMapped, ReviewIsFree,
           GeneratedFor;
      if id !in discoveries {
        return Failure(NotFound);
      }
      var found := ModelByKey(key);
      if found.None? {
        return Failure(NotFound);
      }
      var discovery, m := discoveries[id], found.value;
      OneModelPerKey(models, m);
      if !discovery.status.Unmapped? {
        return Failure(Conflict);
      }
      EffectiveIsConfirmed(discovery, models[m].modality);
      var modality := EffectiveModality(discovery);
      if modality.None? {
        return Failure(InvalidRequest);
      }
      if modality.value != models[m].modality {
        return Failure(InvalidRequest);
      }
      var existing := RouteOf(discovery.provider, discovery.channel, discovery.upstream);
      var r := if existing.Some? then existing.value else newRoute;
      ghost var before := aliases;
      var beforeRoutes := routes;
      routes := routes[r := MappedRoute(routes, r, discovery, m, channels[discovery.channel], now)];
      var aliased := AliasForMapping(m, discovery.upstream, newAlias);
      if aliased.Failure? {
        routes := beforeRoutes;
        return Failure(aliased.error);
      }
      MappingKeepsRouting(models, beforeRoutes, routes, discoveries, channels, id, r, m);
      discoveries := discoveries[id := discovery.(status := Mapped, suggestedModel := Some(m))];
      result := Success(r);
    }

    /** The alias part of `mapDiscoveryToCanonicalTransaction`. */
    method AliasForMapping(model: Id, upstream: string, newAlias: Id) returns (result: Result<()>)
      requires model in models && AliasesSound(models, aliases) && newAlias !in aliases
      modifies this`aliases
      ensures AliasesSound(models, aliases) && ManualAliasesKept(old(aliases), aliases)
      ensures OthersKept(old(aliases), aliases, models[model].modality, aliasKey(upstream))
      ensures result.Failure? ==> result.error.Conflict? && aliases == old(aliases)
      ensures result.Failure? <==> TakenByHand(old(aliases), models[model].modality, aliasKey(upstream), model)
      ensures result.Success? ==> PointsAt(aliases, models[model].modality, aliasKey(upstream), model)
      ensures GeneratedFor(old(aliases), aliases, model, models[model].modality, upstream, aliasKey(upstream))
    {
      hide AliasesSound, GeneratedFor;
      var key, modality := aliasKey(upstream), models[model].modality;
      NothingGenerated(aliases, model, modality, upstream, key);
      var found := AliasByKey(modality, key);
      if found.None? {
        OneGenerated(aliases, newAlias, Alias(model, modality, upstream, key, RouteMapping, true));
        AliasStored(models, aliases, newAlias, Alias(model, modality, upstream, key, RouteMapping, true));
        aliases := aliases[newAlias := Alias(model, modality, upstream, key, RouteMapping, true)];
        assert aliases[newAlias].model == model;
        return Success(());
      }
      AliasIsOnly(models, aliases, found.value);
      var alias := aliases[found.value];
      if alias.model != model && !FromRoute(alias.source) {
        return Failure(Conflict);
      }
      if alias.model != model {
        OneGenerated(aliases, found.value, alias.(model := model, text := upstream, source := RouteMapping));
        AliasStored(models, aliases, found.value, alias.(model := model, text := upstream, source := RouteMapping));
        aliases := aliases[found.value := alias.(model := model, text := upstream, source := RouteMapping)];
      }
      assert aliases[found.value].model == model;
      result := Success(());
    }

    /** `createCanonicalFromDiscovery`, without its price and capabilities. */
    method CreateModelFromDiscovery(id: Id, key: string, modality: string, visible: bool, enabled: bool,
                                    newModel: Id, newRoute: Id, newAlias: Id, now: int) returns (result: Result<()>)
      requires Valid() && newModel !in models && newRoute !in routes && newAlias !in aliases
      modifies this`models, this`routes, this`discoveries, this`aliases
      ensures Valid() && ManualAliasesKept(old(aliases), aliases)
      ensures result.Failure? ==> Unchanged()
      ensures if id !in old(discoveries) then result == Failure(NotFound)
              else if !old(discoveries)[id].status.Unmapped? then result == Failure(Conflict)
              else if !Confirmed(old(discoveries)[id], modality) then result == Failure(InvalidRequest)
              else if exists m :: m in old(models) && old(models)[m].key == key then result == Failure(DuplicateKey)
              else if TakenByHand(old(aliases), modality, aliasKey(old(discoveries)[id].upstream), newModel)
              then result == Failure(Conflict)
              else result.Success?
      ensures result.Success? ==>
                && models == old(models)[newModel := Model(key, modality, enabled, visible, true, true, None, now)]
                && (forall m :: m in old(models) ==> old(models)[m].key != key)
                && id in old(discoveries) && old(discoveries)[id].status.Unmapped?
                && Confirmed(old(discoveries)[id], modality)
                && var reviewed := old(discoveries)[id].(status := Mapped, suggestedModel := Some(newModel));
                discoveries == old(discoveries)[id := reviewed]
                && (exists r ::
                      && r in routes && NamedBy(old(discoveries)[id], routes[r])
                      && routes[r].model == Some(newModel) && !routes[r].enabled
                      && routes == old(routes)[r := routes[r]])
                && OthersKept(old(aliases), aliases, modality, aliasKey(old(discoveries)[id].upstream))
                && PointsAt(aliases, modality, aliasKey(old(discoveries)[id].upstream), newModel)
    {
      hide DefaultsOwned, RoutesUnique, DiscoveriesUnique, EnabledMapped, ReviewIsFree, ChannelsExist, AliasesSound,
           KeysUnique, OthersKept, PointsAt, TakenByHand;
      if id !in discoveries {
        return Failure(NotFound);
      }
      if !discoveries[id].status.Unmapped? {
        return Failure(Conflict);
      }
      EffectiveIsConfirmed(discoveries[id], modality);
      var effective := EffectiveModality(discoveries[id]);
      if effective.None? {
        return Failure(InvalidRequest);
      }
      if effective.value != modality {
        return Failure(InvalidRequest);
      }
      var taken := ModelByKey(key);
      if taken.Some? {
        return Failure(DuplicateKey);
      }
      var before := models;
      models := models[newModel := Model(key, modality, enabled, visible, true, true, None, now)];
      NewModelKeeps(before, models, routes, newModel);
      NewNameKeeps(before, models, aliases, newModel);
      var mapped := MapDiscovery(id, key, newRoute, newAlias, now);
      if mapped.Failure? {
        models := before;
        return Failure(mapped.error);
      }
      assert routes[mapped.value].model.value == newModel;
      result := Success(());
    }

    /** `deleteAdminAiModel`; `used` stands for price versions, requests, settlements and usage
        bindings. The model's aliases go with it. */
    method DeleteModel(key: string, expected: Option<int>, used: bool) returns (result: Result<Id>)
      requires Valid()
      modifies this`models, this`aliases
      ensures Valid()
      ensures result.Failure? ==> Unchanged()
      ensures forall m :: m in old(models) && old(models)[m].key == key ==>
                var model := old(models)[m];
                if expected.Some? && expected.value != model.updatedAt then result == Failure(Conflict)
                else if !model.draft || model.enabled || model.visible || used
                        || (exists r :: r in routes && routes[r].model == Some(m)) then
                  result == Failure(InvalidRequest)
                else
                  result == Success(m) && models == old(models) - {m}
                  && aliases == (map a | a in old(aliases) && old(aliases)[a].model != m :: old(aliases)[a])
      ensures result == Failure(NotFound) <==> forall m :: m in old(models) ==> old(models)[m].key != key
    {
      hide ReviewIsFree, RoutesUnique, DiscoveriesUnique, ChannelsExist, DefaultsOwned, EnabledMapped, AliasesSound,
           KeysUnique;
      var found := ModelByKey(key);
      if found.None? {
        return Failure(NotFound);
      }
      var m := found.value;
      OneModelPerKey(models, m);
      var model := models[m];
      if expected.Some? && expected.value != model.updatedAt {
        return Failure(Conflict);
      }
      if !model.draft || model.enabled || model.visible {
        return Failure(InvalidRequest);
      }
      if r :| r in routes && routes[r].model == Some(m) {
        return Failure(InvalidRequest);
      }
      if used {
        return Failure(InvalidRequest);
      }
      DeletedModelKeeps(models, routes, aliases, m);
      models := models - {m};
      aliases := map a | a in aliases && aliases[a].model != m :: aliases[a];
      result := Success(m);
    }

    /** `createAdminAiModelAlias`; the result is the alias, existing or created. */
    method CreateAlias(key: string, text: string, newAlias: Id) returns (result: Result<Id>)
      requires Valid() && newAlias !in aliases
      modifies this`aliases
      ensures Valid()
      ensures result.Failure? ==> Unchanged()
      ensures aliasKey(trim(text)) == "" <==> result == Failure(InvalidRequest)
      ensures result == Failure(NotFound) ==> forall m :: m in models ==> models[m].key != key
      ensures result.Failure? && !result.error.InvalidRequest? && !result.error.NotFound? ==>
                result.error.Conflict?
                && exists m, a ::
                     && m in models && models[m].key == key
                     && a in aliases && aliases[a].modality == models[m].modality
                     && aliases[a].key == aliasKey(trim(text)) && aliases[a].model != m
      ensures forall a :: a in old(aliases) ==> a in aliases && aliases[a] == old(aliases)[a]
      ensures result.Success? ==>
                && aliases.Keys == old(aliases).Keys + {result.value}
                && var alias := aliases[result.value];
                alias.key == aliasKey(trim(text)) && models[alias.model].key == key
                && alias.modality == models[alias.model].modality
                && (result.value !in old(aliases) ==> alias.text == trim(text) && alias.source == Admin)
    {
      var alias := trim(text);
      if aliasKey(alias) == "" {
        return Failure(InvalidRequest);
      }
      var found := ModelByKey(key);
      if found.None? {
        return Failure(NotFound);
      }
      var m := found.value;
      var existing := AliasByKey(models[m].modality, aliasKey(alias));
      if existing.Some? {
        if aliases[existing.value].model != m {
          return Failure(Conflict);
        }
        return Success(existing.value);
      }
      AliasStored(models, aliases, newAlias, Alias(m, models[m].modality, alias, aliasKey(alias), Admin, true));
      aliases := aliases[newAlias := Alias(m, models[m].modality, alias, aliasKey(alias), Admin, true)];
      result := Success(newAlias);
    }

    /** `deleteAdminAiModelAlias`: only aliases that no route mapping maintains. */
    method DeleteAlias(key: string, id: Id) returns (result: Result<()>)
      requires Valid()
      modifies this`aliases
      ensures Valid()
      ensures if id !in old(aliases) || models[old(aliases)[id].model].key != key
              then result == Failure(NotFound) && Unchanged()
              else if !ByHand(old(aliases)[id].source) then result == Failure(InvalidRequest) && Unchanged()
              else result == Success(()) && aliases == old(aliases) - {id}
    {
      if id !in aliases || models[aliases[id].model].key != key {
        return Failure(NotFound);
      }
      if FromRoute(aliases[id].source) {
        return Failure(InvalidRequest);
      }
      aliases := aliases - {id};
      result := Success(());
    }

    /** `ignoreDiscovery` and `updateDiscoveryModalityOverride` change no mapping. */
    method IgnoreDiscovery(id: Id) returns (result: Result<()>)
      requires Valid()
      modifies this`discoveries
      ensures Valid()
      ensures if id !in old(discoveries) then result == Failure(NotFound) && Unchanged()
              else
                && result == Success(())
                && discoveries == old(discoveries)[id := old(discoveries)[id].(status := Ignored)]
    {
      if id !in discoveries {
        return Failure(NotFound);
      }
      discoveries := discoveries[id := discoveries[id].(status := Ignored)];
      result := Success(());
    }

    method OverrideModality(id: Id, override: Option<string>) returns (result: Result<()>)
      requires Valid()
      modifies this`discoveries
      ensures Valid()
      ensures if id !in old(discoveries) then result == Failure(NotFound) && Unchanged()
              else if !old(discoveries)[id].status.Unmapped? then result == Failure(Conflict) && Unchanged()
              else
                && result == Success(())
                && discoveries == old(discoveries)[id := old(discoveries)[id].(override := override)]
                && (KnownModality(override) ==>
                      forall modality :: Confirmed(discoveries[id], modality) <==> override == Some(modality))
                && (override.None? && KnownModality(discoveries[id].suggested) ==>
                      Confirmed(discoveries[id], discoveries[id].suggested.value))
    {
      if id !in discoveries {
        return Failure(NotFound);
      }
      if !discoveries[id].status.Unmapped? {
        return Failure(Conflict);
      }
      discoveries := discoveries[id := discoveries[id].(override := override)];
      result := Success(());
    }

    /** `createProvider`, as far as routes and discoveries see it: a new channel with its priority. */
    method CreateChannel(newChannel: Id, priority: int)
      requires Valid() && newChannel !in channels
      modifies this`channels
      ensures Valid() && channels == old(channels)[newChannel := priority]
    {
      channels := channels[newChannel := priority];
    }

    /** Deleting a provider channel: its routes lose the channel, its discoveries go with it. */
    method DeleteChannel(channel: Id)
      requires Valid()
      modifies this`channels, this`routes, this`discoveries
      ensures Valid()
      ensures channels == old(channels) - {channel}
      ensures routes.Keys == old(routes).Keys
      ensures forall r :: r in routes ==>
                routes[r] == old(routes)[r].(channel := if old(routes)[r].channel == Some(channel) then None
                                                        else old(routes)[r].channel)
      ensures forall d :: d in discoveries <==> d in old(discoveries) && old(discoveries)[d].channel != channel
      ensures forall d :: d in discoveries ==> discoveries[d] == old(discoveries)[d]
    {
      channels := channels - {channel};
      routes := Orphaned(routes, channel);
      discoveries := WithoutChannel(discoveries, channel);
      DeletedChannelKeeps(old(channels), models, old(routes), old(discoveries), channel);
    }

    /** `syncUpstreamModels` for one upstream model, as one atomic step. `confirmed` is the model that
        `confirmedMappedModel` finds. A route found by the sync is never enabled by it. */
    method SyncUpstreamModel(provider: string, channel: Id, upstream: string, suggested: Option<string>,
                             confirmed: Option<Id>, newRoute: Id, newDiscovery: Id, now: int)
      requires Valid() && channel in channels && newRoute !in routes && newDiscovery !in discoveries
      requires confirmed.Some? ==> confirmed.value in models
      modifies this`routes, this`discoveries
      ensures Valid()
      ensures forall r :: r in old(routes) && At(old(routes)[r], provider, channel, upstream) ==>
                && routes == old(routes)[r := old(routes)[r].(updatedAt := now)]
                && if old(routes)[r].model.None?
                   then Suggests(old(discoveries), discoveries, provider, channel, upstream, suggested)
                   else discoveries == old(discoveries)
      ensures (forall r :: r in old(routes) ==> !At(old(routes)[r], provider, channel, upstream)) ==>
                if confirmed.Some?
                then && routes == old(routes)[newRoute := Route(confirmed, provider, Some(channel), upstream, false,
                                                                channels[channel], now)]
                     && MapsTo(old(discoveries), discoveries, provider, channel, upstream, suggested, confirmed.value)
                else && routes == old(routes)
                     && Suggests(old(discoveries), discoveries, provider, channel, upstream, suggested)
      ensures forall r :: r in old(routes) ==>
                r in routes && routes[r].(updatedAt := 0) == old(routes)[r].(updatedAt := 0)
      ensures forall r :: r in routes && r !in old(routes) ==> routes[r].model == confirmed && !routes[r].enabled
      ensures forall d :: d in old(discoveries) ==>
                            d in discoveries
                            && Concerns(discoveries[d], old(discoveries)[d].channel, old(discoveries)[d].upstream)
                            && (discoveries[d].status == old(discoveries)[d].status
                                || (newRoute in routes && Concerns(discoveries[d], channel, upstream)
                                    && discoveries[d].status == Mapped))
      ensures forall d :: d in discoveries && d !in old(discoveries) ==> Concerns(discoveries[d], channel, upstream)
      ensures forall d :: d in discoveries && d !in old(discoveries) ==>
                            discoveries[d].status == if newRoute in routes then Mapped else Unmapped
    {
      hide DefaultsOwned, EnabledMapped, ReviewIsFree, RoutesUnique, DiscoveriesUnique, ChannelsExist, Suggests, MapsTo;
      var existing := RouteOf(provider, channel, upstream);
      var known := DiscoveryOf(channel, upstream);
      var d := if known.Some? then known.value else newDiscovery;
      var discovery := Discovery(provider, channel, upstream, suggested, None, Unmapped, None);
      if existing.Some? {
        var r := existing.value;
        OneRouteAt(routes, r, provider, channel, upstream);
        MappedExists(models, routes, r);
        routes := routes[r := routes[r].(updatedAt := now)];
        StayingKeepsDefaults(models, old(routes), models, routes, r);
        EndpointsKept(old(routes), routes, discoveries, channels, r);
        if routes[r].model.None? {
          if known.Some? {
            discovery := discoveries[d].(suggested := suggested);
          }
          SyncedStored(routes, discoveries, channels, d, discovery, r);
          SuggestsStored(discoveries, d, discovery, provider, channel, upstream, suggested);
          discoveries := discoveries[d := discovery];
        }
      } else if confirmed.Some? {
        var route := Route(confirmed, provider, Some(channel), upstream, false, channels[channel], now);
        var reviewed := if known.Some? then discoveries[d] else discovery;
        reviewed := reviewed.(status := Mapped, suggestedModel := confirmed);
        NewRouteKeeps(models, routes, discoveries, channels, newRoute, route, d, reviewed);
        MapsToStored(discoveries, d, reviewed, provider, channel, upstream, suggested, confirmed.value);
        routes := routes[newRoute := route];
        discoveries := discoveries[d := reviewed];
      } else {
        if known.Some? {
          discovery := discoveries[d].(suggested := suggested);
        }
        AbsentStored(routes, discoveries, channels, d, discovery);
        SuggestsStored(discoveries, d, discovery, provider, channel, upstream, suggested);
        discoveries := discoveries[d := discovery];
      }
    }
  }

  lemma OneRouteAt(routes: map<Id, Route>, r: Id, provider: string, channel: Id, upstream: string)
    requires RoutesUnique(routes) && r in routes && At(routes[r], provider, channel, upstream)
    ensures forall q :: q in routes && At(routes[q], provider, channel, upstream) ==> q == r
  {
    forall q | q in routes && At(routes[q], provider, channel, upstream)
      ensures q == r
    {
      assert SameEndpoint(routes[r], routes[q]);
    }
  }

  lemma SuggestsStored(discoveries: map<Id, Discovery>, d: Id, discovery: Discovery, provider: string, channel: Id,
                       upstream: string, suggested: Option<string>)
    requires if d in discoveries
             then Concerns(discoveries[d], channel, upstream) && discovery == discoveries[d].(suggested := suggested)
             else && (forall e :: e in discoveries ==> !Concerns(discoveries[e], channel, upstream))
                  && discovery == Discovery(provider, channel, upstream, suggested, None, Unmapped, None)
    ensures Suggests(discoveries, discoveries[d := discovery], provider, channel, upstream, suggested)
  {
    assert discoveries[d := discovery][d] == discovery;
  }

  lemma MapsToStored(discoveries: map<Id, Discovery>, d: Id, discovery: Discovery, provider: string, channel: Id,
                     upstream: string, suggested: Option<string>, model: Id)
    requires if d in discoveries
             then && Concerns(discoveries[d], channel, upstream)
                  && discovery == discoveries[d].(status := Mapped, suggestedModel := Some(model))
             else && (forall e :: e in discoveries ==> !Concerns(discoveries[e], channel, upstream))
                  && discovery == Discovery(provider, channel, upstream, suggested, None, Mapped, Some(model))
    ensures MapsTo(discoveries, discoveries[d := discovery], provider, channel, upstream, suggested, model)
  {
    assert discoveries[d := discovery][d] == discovery;
  }

  /** The alias of this name stands in the way of moving a route from `source` to `target`: another
      model's route alias, or an administrator's alias of a model other than the target. */
  ghost predicate AliasBlocks(aliases: map<Id, Alias>, modality: string, key: string, source: Id, target: Option<Id>) {
    key != "" && exists a :: a in aliases && aliases[a].modality == modality && aliases[a].key == key
                             && if ByHand(aliases[a].source) then target.Some? && aliases[a].model != target.value
                                else aliases[a].model != source
  }

  ghost predicate OnlyManual(aliases: map<Id, Alias>, modality: string, key: string) {
    forall a :: a in aliases && aliases[a].modality == modality && aliases[a].key == key ==>
      ByHand(aliases[a].source)
  }

  /** The aliases of other names are untouched. */
  ghost predicate OthersKept(before: map<Id, Alias>, after: map<Id, Alias>, modality: string, key: string) {
    && (forall a :: a in before && !(before[a].modality == modality && before[a].key == key) ==>
        a in after && after[a] == before[a])
    && (forall a :: a in after && !(after[a].modality == modality && after[a].key == key) ==>
        a in before && before[a] == after[a])
  }

  /** What a mapping writes is an alias of this model for this upstream id, maintained by the mapping. */
  ghost predicate GeneratedFor(before: map<Id, Alias>, after: map<Id, Alias>, model: Id, modality: string,
                               upstream: string, key: string) {
    forall a :: a in after && (a in before ==> after[a] != before[a]) ==>
      && after[a].model == model && after[a].modality == modality && after[a].text == upstream
      && after[a].key == key && after[a].source == RouteMapping
      && (a in before ==> before[a].modality == modality && before[a].key == key)
  }

  lemma OneGenerated(aliases: map<Id, Alias>, id: Id, alias: Alias)
    requires alias.source == RouteMapping
    requires id in aliases ==> aliases[id].modality == alias.modality && aliases[id].key == alias.key
    ensures GeneratedFor(aliases, aliases[id := alias], alias.model, alias.modality, alias.text, alias.key)
  {
  }

  lemma NothingGenerated(aliases: map<Id, Alias>, model: Id, modality: string, upstream: string, key: string)
    ensures GeneratedFor(aliases, aliases, model, modality, upstream, key)
  {
  }

  ghost predicate PointsAt(aliases: map<Id, Alias>, modality: string, key: string, model: Id) {
    exists a :: a in aliases && aliases[a].modality == modality && aliases[a].key == key && aliases[a].model == model
  }

  /** The discoveries of a route's channel and upstream id, reviewed: mapped to a model. */
  function Reviewed(discoveries: map<Id, Discovery>, route: Route, target: Option<Id>): map<Id, Discovery> {
    map d | d in discoveries ::
      if route.channel == Some(discoveries[d].channel) && route.upstream == discoveries[d].upstream
      then discoveries[d].(status := Mapped, suggestedModel := target) else discoveries[d]
  }

  /** The discovery of this route, and no other, is mapped to the target. */
  ghost predicate ReviewedFor(before: map<Id, Discovery>, after: map<Id, Discovery>, route: Route, target: Id) {
    before.Keys == after.Keys
    && forall d :: d in before ==>
         if route.channel == Some(before[d].channel) && before[d].upstream == route.upstream
         then after[d] == before[d].(status := Mapped, suggestedModel := Some(target)) else after[d] == before[d]
  }

  lemma ReviewedForTarget(discoveries: map<Id, Discovery>, route: Route, target: Id)
    ensures ReviewedFor(discoveries, Reviewed(discoveries, route, Some(target)), route, target)
  {
  }

  /** The discovery of this upstream model, known or new, has the suggested modality; what was decided about
      a known one stays, and a new one awaits review. */
  ghost predicate Suggests(before: map<Id, Discovery>, after: map<Id, Discovery>, provider: string, channel: Id,
                           upstream: string, suggested: Option<string>) {
    exists d :: d in after && after == before[d := after[d]]
      && if d in before
         then Concerns(before[d], channel, upstream) && after[d] == before[d].(suggested := suggested)
         else && (forall e :: e in before ==> !Concerns(before[e], channel, upstream))
              && after[d] == Discovery(provider, channel, upstream, suggested, None, Unmapped, None)
  }

  /** It is mapped to a confirmed model. */
  ghost predicate MapsTo(before: map<Id, Discovery>, after: map<Id, Discovery>, provider: string, channel: Id,
                         upstream: string, suggested: Option<string>, model: Id) {
    exists d :: d in after && after == before[d := after[d]]
      && if d in before
         then Concerns(before[d], channel, upstream)
              && after[d] == before[d].(status := Mapped, suggestedModel := Some(model))
         else && (forall e :: e in before ==> !Concerns(before[e], channel, upstream))
              && after[d] == Discovery(provider, channel, upstream, suggested, None, Mapped, Some(model))
  }

  /** Changing what a route maps to moves no endpoint. */
  lemma EndpointsKept(routes: map<Id, Route>, routes': map<Id, Route>, discoveries: map<Id, Discovery>,
                      channels: map<Id, int>, id: Id)
    requires id in routes && id in routes' && routes' == routes[id := routes'[id]]
             && SameEndpoint(routes[id], routes'[id])
    requires RoutesUnique(routes) && ChannelsExist(channels, routes, discoveries)
    ensures RoutesUnique(routes') && ChannelsExist(channels, routes', discoveries)
    ensures routes'[id].model == routes[id].model && ReviewIsFree(routes, discoveries) ==>
              ReviewIsFree(routes', discoveries)
  {
  }

  lemma ReviewKept(discoveries: map<Id, Discovery>, routes: map<Id, Route>, routes': map<Id, Route>,
                   channels: map<Id, int>, id: Id, target: Option<Id>)
    requires id in routes && id in routes' && routes' == routes[id := routes'[id]]
             && SameEndpoint(routes[id], routes'[id])
    requires ReviewIsFree(routes, discoveries) && DiscoveriesUnique(discoveries)
             && ChannelsExist(channels, routes', discoveries)
    ensures var reviewed := Reviewed(discoveries, routes[id], target);
            ReviewIsFree(routes', reviewed) && DiscoveriesUnique(reviewed) && ChannelsExist(channels, routes', reviewed)
  {
  }

  /** The unmapped route's discovery, found or new, awaits review again. */
  ghost predicate BackInReview(before: map<Id, Discovery>, after: map<Id, Discovery>, route: Route, modality: string)
    requires route.channel.Some?
  {
    exists d :: d in after && after == before[d := after[d]]
      && after[d] == Discovery(route.provider, route.channel.value, route.upstream, Some(modality),
                               if d in before then before[d].override else None, Unmapped, None)
      && (d in before ==> Concerns(before[d], route.channel.value, route.upstream))
  }

  /** An administrator's alias of another model has this name. */
  ghost predicate TakenByHand(aliases: map<Id, Alias>, modality: string, key: string, model: Id) {
    exists a :: a in aliases && aliases[a].modality == modality && aliases[a].key == key
                && aliases[a].model != model && ByHand(aliases[a].source)
  }

  /** The upserted route: mapped and disabled. */
  function MappedRoute(routes: map<Id, Route>, r: Id, discovery: Discovery, model: Id, priority: int, now: int): Route {
    if r in routes then routes[r].(model := Some(model), enabled := false, updatedAt := now)
    else Route(Some(model), discovery.provider, Some(discovery.channel), discovery.upstream, false, priority, now)
  }

  lemma OneModelPerKey(models: map<Id, Model>, m: Id)
    requires KeysUnique(models) && m in models
    ensures forall n :: n in models && models[n].key == models[m].key ==> n == m
  {
  }

  /** Disabling a route without a repair keeps every default owned exactly when no model has it as
      its default; that is why a discovery under review must not name a mapped route. */
  lemma MappingKeepsDefaults(models: map<Id, Model>, routes: map<Id, Route>, r: Id, mapped: Route)
    requires DefaultsOwned(models, routes) && !mapped.enabled
    ensures DefaultsOwned(models, routes[r := mapped])
       <==> forall m :: m in models ==> models[m].defaultRoute != Some(r)
  {
  }

  /** A catalog on which mapping an enabled default route without a repair leaves its model with a
      disabled default. */
  lemma MappedDefault()
    ensures var route := Route(Some(1), "provider", Some(7), "upstream", true, 100, 0);
            var models := map[1 := Model("model", "image", true, true, false, true, Some(3), 0)];
            DefaultsOwned(models, map[3 := route])
            && !DefaultsOwned(models, map[3 := route][3 := route.(enabled := false)])
  {
    var route := Route(Some(1), "provider", Some(7), "upstream", true, 100, 0);
    var models := map[1 := Model("model", "image", true, true, false, true, Some(3), 0)];
    MappingKeepsDefaults(models, map[3 := route], 3, route.(enabled := false));
    assert models[1].defaultRoute == Some(3);
  }

  /** A route under review is no default, so mapping it keeps all of the routing. */
  lemma MappingKeepsRouting(models: map<Id, Model>, routes: map<Id, Route>, routes': map<Id, Route>,
                            discoveries: map<Id, Discovery>, channels: map<Id, int>, id: Id, r: Id, m: Id)
    requires DefaultsOwned(models, routes) && EnabledMapped(models, routes) && m in models
    requires ReviewIsFree(routes, discoveries) && RoutesUnique(routes) && DiscoveriesUnique(discoveries)
             && ChannelsExist(channels, routes, discoveries)
    requires id in discoveries && discoveries[id].status.Unmapped?
    requires r in routes' && routes' == routes[r := routes'[r]]
    requires NamedBy(discoveries[id], routes'[r]) && routes'[r].model == Some(m) && !routes'[r].enabled
    requires if r in routes then SameEndpoint(routes[r], routes'[r])
             else forall q :: q in routes ==> !NamedBy(discoveries[id], routes[q])
    ensures var discoveries' := discoveries[id := discoveries[id].(status := Mapped, suggestedModel := Some(m))];
            && DefaultsOwned(models, routes') && EnabledMapped(models, routes')
            && ReviewIsFree(routes', discoveries') && RoutesUnique(routes') && DiscoveriesUnique(discoveries')
            && ChannelsExist(channels, routes', discoveries')
  {
  }

  /** A detached route puts nothing under review in the wrong. */
  lemma DetachedIsFree(routes: map<Id, Route>, routes': map<Id, Route>, discoveries: map<Id, Discovery>, id: Id)
    requires id in routes && id in routes' && routes' == routes[id := routes'[id]] && routes'[id].model.None?
    requires ReviewIsFree(routes, discoveries)
    ensures ReviewIsFree(routes', discoveries)
  {
  }

  /** Storing a discovery whose own route is unmapped, under its unique index. */
  lemma DiscoveryStored(routes: map<Id, Route>, discoveries: map<Id, Discovery>, channels: map<Id, int>, d: Id,
                        discovery: Discovery)
    requires ReviewIsFree(routes, discoveries) && DiscoveriesUnique(discoveries)
             && ChannelsExist(channels, routes, discoveries)
    requires discovery.channel in channels
    requires d in discoveries ==> Concerns(discoveries[d], discovery.channel, discovery.upstream)
    requires d !in discoveries ==>
               forall e :: e in discoveries ==> !Concerns(discoveries[e], discovery.channel, discovery.upstream)
    requires discovery.status.Unmapped? ==>
               forall r :: r in routes && NamedBy(discovery, routes[r]) ==> routes[r].model.None?
    ensures ReviewIsFree(routes, discoveries[d := discovery]) && DiscoveriesUnique(discoveries[d := discovery])
    ensures ChannelsExist(channels, routes, discoveries[d := discovery])
  {
  }

  lemma SyncedStored(routes: map<Id, Route>, discoveries: map<Id, Discovery>, channels: map<Id, int>, d: Id,
                     discovery: Discovery, r: Id)
    requires ReviewIsFree(routes, discoveries) && DiscoveriesUnique(discoveries) && RoutesUnique(routes)
    requires ChannelsExist(channels, routes, discoveries) && discovery.channel in channels
    requires r in routes && routes[r].model.None?
    requires if d in discoveries then discovery == discoveries[d].(suggested := discovery.suggested)
             else
               && NamedBy(discovery, routes[r])
               && forall e :: e in discoveries ==> !Concerns(discoveries[e], discovery.channel, discovery.upstream)
    ensures ReviewIsFree(routes, discoveries[d := discovery]) && DiscoveriesUnique(discoveries[d := discovery])
    ensures ChannelsExist(channels, routes, discoveries[d := discovery])
  {
  }

  lemma AbsentStored(routes: map<Id, Route>, discoveries: map<Id, Discovery>, channels: map<Id, int>, d: Id,
                     discovery: Discovery)
    requires ReviewIsFree(routes, discoveries) && DiscoveriesUnique(discoveries)
    requires ChannelsExist(channels, routes, discoveries) && discovery.channel in channels
    requires if d in discoveries then discovery == discoveries[d].(suggested := discovery.suggested)
             else (forall e :: e in discoveries ==> !Concerns(discoveries[e], discovery.channel, discovery.upstream))
                  && forall q :: q in routes ==> !NamedBy(discovery, routes[q])
    ensures ReviewIsFree(routes, discoveries[d := discovery]) && DiscoveriesUnique(discoveries[d := discovery])
    ensures ChannelsExist(channels, routes, discoveries[d := discovery])
  {
  }

  lemma NewRouteKeeps(models: map<Id, Model>, routes: map<Id, Route>, discoveries: map<Id, Discovery>,
                      channels: map<Id, int>, r: Id, route: Route, d: Id, discovery: Discovery)
    requires DefaultsOwned(models, routes) && EnabledMapped(models, routes) && r !in routes
    requires ReviewIsFree(routes, discoveries) && RoutesUnique(routes) && DiscoveriesUnique(discoveries)
             && ChannelsExist(channels, routes, discoveries)
    requires route.model.Some? && route.model.value in models && !route.enabled
             && route.channel == Some(discovery.channel) && discovery.channel in channels
    requires route.upstream == discovery.upstream && !discovery.status.Unmapped?
    requires forall q :: q in routes ==> !SameEndpoint(routes[q], route)
    requires d in discoveries ==> Concerns(discoveries[d], discovery.channel, discovery.upstream)
    requires d !in discoveries ==>
               forall e :: e in discoveries ==> !Concerns(discoveries[e], discovery.channel, discovery.upstream)
    ensures DefaultsOwned(models, routes[r := route]) && EnabledMapped(models, routes[r := route])
    ensures ReviewIsFree(routes[r := route], discoveries[d := discovery]) && RoutesUnique(routes[r := route])
    ensures DiscoveriesUnique(discoveries[d := discovery])
            && ChannelsExist(channels, routes[r := route], discoveries[d := discovery])
  {
  }

  /** Deleting a model without routes takes its aliases with it and leaves the rest in order. */
  lemma DeletedModelKeeps(models: map<Id, Model>, routes: map<Id, Route>, aliases: map<Id, Alias>, m: Id)
    requires DefaultsOwned(models, routes) && EnabledMapped(models, routes) && KeysUnique(models)
             && AliasesSound(models, aliases)
    requires forall r :: r in routes ==> routes[r].model != Some(m)
    ensures DefaultsOwned(models - {m}, routes) && EnabledMapped(models - {m}, routes) && KeysUnique(models - {m})
    ensures AliasesSound(models - {m}, map a | a in aliases && aliases[a].model != m :: aliases[a])
  {
  }

  /** Between the two writes of a synchronisation the review invariant holds exactly when no discovery
      still under review names the new route. */
  lemma SyncWindow(routes: map<Id, Route>, discoveries: map<Id, Discovery>, r: Id, route: Route)
    requires ReviewIsFree(routes, discoveries) && r !in routes && route.model.Some?
    ensures ReviewIsFree(routes[r := route], discoveries)
            <==> forall d :: d in discoveries && discoveries[d].status.Unmapped? ==> !NamedBy(discoveries[d], route)
  {
    var after := routes[r := route];
    assert after[r] == route;
    if forall d :: d in discoveries && discoveries[d].status.Unmapped? ==> !NamedBy(discoveries[d], route) {
      forall d, q | && d in discoveries && q in after
                    && discoveries[d].status.Unmapped? && NamedBy(discoveries[d], after[q])
        ensures after[q].model.None?
      {
        assert q != r && NamedBy(discoveries[d], routes[q]);
      }
    }
  }

  /** What can happen between the two writes of a synchronisation: the new route is enabled and made
      the default of its model, and then the discovery, still under review, is mapped to another
      model. It takes the default route along, disabled. */
  lemma SyncWindowTrace()
    ensures var models := map[1 := Model("one", "image", true, true, false, true, None, 0),
                              2 := Model("two", "image", true, true, false, true, None, 0)];
            var discovery := Discovery("provider", 7, "upstream", Some("image"), None, Unmapped, None);
            var route := Route(Some(1), "provider", Some(7), "upstream", false, 100, 0);
            var enabled := EditedRoute(route, RouteEdit(Some(true), None), 1);
            var chosen := EditedModel(models[1], ModelEdit(None, None, None, None, Some(Some(3))), 2);
            var mapped := MappedRoute(map[3 := enabled], 3, discovery, 2, 100, 3);
            && ReviewIsFree(map[], map[5 := discovery]) && !ReviewIsFree(map[3 := route], map[5 := discovery])
            && DefaultsOwned(models, map[3 := route]) && DefaultsOwned(models[1 := chosen], map[3 := enabled])
            && !DefaultsOwned(models[1 := chosen], map[3 := enabled][3 := mapped])
  {
    var models := map[1 := Model("one", "image", true, true, false, true, None, 0),
                      2 := Model("two", "image", true, true, false, true, None, 0)];
    var discovery := Discovery("provider", 7, "upstream", Some("image"), None, Unmapped, None);
    var route := Route(Some(1), "provider", Some(7), "upstream", false, 100, 0);
    var enabled := EditedRoute(route, RouteEdit(Some(true), None), 1);
    var chosen := EditedModel(models[1], ModelEdit(None, None, None, None, Some(Some(3))), 2);
    SyncWindow(map[], map[5 := discovery], 3, route);
    var mapped := MappedRoute(map[3 := enabled], 3, discovery, 2, 100, 3);
    MappingKeepsDefaults(models[1 := chosen], map[3 := enabled], 3, mapped);
    assert models[1 := chosen][1].defaultRoute == Some(3);
    assert map[5 := discovery][5].status.Unmapped? && NamedBy(discovery, route);
    assert map[][3 := route] == map[3 := route];
  }

  lemma NewModelKeeps(models: map<Id, Model>, models': map<Id, Model>, routes: map<Id, Route>, m: Id)
    requires DefaultsOwned(models, routes) && EnabledMapped(models, routes) && m !in models
    requires m in models' && models' == models[m := models'[m]] && models'[m].defaultRoute.None?
    ensures DefaultsOwned(models', routes) && EnabledMapped(models', routes)
  {
  }

  lemma NewNameKeeps(models: map<Id, Model>, models': map<Id, Model>, aliases: map<Id, Alias>, m: Id)
    requires AliasesSound(models, aliases) && KeysUnique(models) && m !in models
    requires m in models' && models' == models[m := models'[m]]
    requires forall n :: n in models ==> models[n].key != models'[m].key
    ensures AliasesSound(models', aliases) && KeysUnique(models')
  {
  }

  /** `onDelete: SetNull` and `onDelete: Cascade` */
  function Orphaned(routes: map<Id, Route>, channel: Id): map<Id, Route> {
    map r | r in routes :: if routes[r].channel == Some(channel) then routes[r].(channel := None) else routes[r]
  }

  function WithoutChannel(discoveries: map<Id, Discovery>, channel: Id): map<Id, Discovery> {
    map d | d in discoveries && discoveries[d].channel != channel :: discoveries[d]
  }

  lemma OrphansKeepDefaults(models: map<Id, Model>, routes: map<Id, Route>, channel: Id)
    requires DefaultsOwned(models, routes) && EnabledMapped(models, routes)
    ensures DefaultsOwned(models, Orphaned(routes, channel)) && EnabledMapped(models, Orphaned(routes, channel))
  {
    forall m | m in models && models[m].defaultRoute.Some?
      ensures EnabledRouteOf(Orphaned(routes, channel), m, models[m].defaultRoute.value)
    {
      assert EnabledRouteOf(routes, m, models[m].defaultRoute.value);
    }
  }

  lemma OrphansStayUnique(routes: map<Id, Route>, channel: Id)
    requires RoutesUnique(routes)
    ensures RoutesUnique(Orphaned(routes, channel))
  {
    var routes' := Orphaned(routes, channel);
    forall p, q | p in routes' && q in routes' && p != q && routes'[p].channel.Some?
      ensures !SameEndpoint(routes'[p], routes'[q])
    {
      assert !SameEndpoint(routes[p], routes[q]);
    }
  }

  lemma DeletedChannelKeeps(channels: map<Id, int>, models: map<Id, Model>, routes: map<Id, Route>,
                            discoveries: map<Id, Discovery>, channel: Id)
    requires DefaultsOwned(models, routes) && EnabledMapped(models, routes)
    requires ReviewIsFree(routes, discoveries) && RoutesUnique(routes) && DiscoveriesUnique(discoveries)
             && ChannelsExist(channels, routes, discoveries)
    ensures var routes' := Orphaned(routes, channel);
            var discoveries' := WithoutChannel(discoveries, channel);
            && DefaultsOwned(models, routes') && EnabledMapped(models, routes')
            && ReviewIsFree(routes', discoveries') && RoutesUnique(routes') && DiscoveriesUnique(discoveries')
            && ChannelsExist(channels - {channel}, routes', discoveries')
  {
    hide DefaultsOwned, EnabledMapped, RoutesUnique;
    var routes' := Orphaned(routes, channel);
    var discoveries' := WithoutChannel(discoveries, channel);
    OrphansKeepDefaults(models, routes, channel);
    OrphansStayUnique(routes, channel);
    forall d, q | && d in discoveries' && q in routes' && discoveries'[d].status.Unmapped?
                  && NamedBy(discoveries'[d], routes'[q])
      ensures routes'[q].model.None?
    {
      assert NamedBy(discoveries[d], routes[q]);
    }
  }
}
