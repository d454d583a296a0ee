/** Live slugs and slug history of plants: two tables that implement one last-owner map. */
module SlugHistory {
  import opened Wrappers
  import Orders

  datatype Entry = Entry(slug: string, isActive: bool)

  /** `plants.slug` with the active flag, and the history rows keyed by their unique slug. */
  datatype Catalogue = Catalogue(plants: map<Orders.PlantId, Entry>, history: map<string, Orders.PlantId>)

  datatype Error = SlugTaken | PlantNotFound | IntegrityError

  const EMPTY := Catalogue(map[], map[])

  predicate SlugFree(c: Catalogue, slug: string, exclude: Option<Orders.PlantId>) {
    forall id :: id in c.plants && c.plants[id].slug == slug ==> exclude == Some(id)
  }

  function Release(history: map<string, Orders.PlantId>, slug: string): map<string, Orders.PlantId> {
    history - {slug}
  }

  /** The slug part of `create_plant`; `id` is the new row's key. */
  function Create(c: Catalogue, id: Orders.PlantId, entry: Entry): Result<Catalogue, Error> {
    if id in c.plants then Failure(IntegrityError)
    else if !SlugFree(c, entry.slug, None) then Failure(SlugTaken)
    else Success(Catalogue(c.plants[id := entry], Release(c.history, entry.slug)))
  }

  /** The slug and status part of `update_plant`. */
  function Update(c: Catalogue, id: Orders.PlantId, slug: Option<string>, isActive: Option<bool>):
    Result<Catalogue, Error>
  {
    if id !in c.plants then Failure(PlantNotFound)
    else
      var entry := c.plants[id];
      var active := if isActive.Some? then isActive.value else entry.isActive;
      if slug.None? || slug.value == entry.slug then Success(c.(plants := c.plants[id := Entry(entry.slug, active)]))
      else if !SlugFree(c, slug.value, Some(id)) then Failure(SlugTaken)
      else
        var released := Release(c.history, slug.value);
        if entry.slug in released then Failure(IntegrityError)
        else Success(Catalogue(c.plants[id := Entry(slug.value, active)], released[entry.slug := id]))
  }

  predicate Visible(c: Catalogue, id: Orders.PlantId, activeOnly: bool) {
    id in c.plants && (activeOnly ==> c.plants[id].isActive)
  }

  class CatalogueService {
    var plants: map<Orders.PlantId, Entry>
    var history: map<string, Orders.PlantId>

    constructor ()
      ensures State() == EMPTY
    {
      plants, history := map[], map[];
    }

    ghost function State(): Catalogue
      reads this
    {
      Catalogue(plants, history)
    }

    method EnsureSlugAvailable(slug: string, exclude: Option<Orders.PlantId>) returns (ok: bool)
      ensures ok == SlugFree(State(), slug, exclude)
    {
      var others := set id | id in plants && plants[id].slug == slug && exclude != Some(id);
      ok := others == {};
      if !ok {
        var id :| id in others;
        assert id in plants && plants[id].slug == slug && exclude != Some(id);
      } else {
        forall id | id in plants && plants[id].slug == slug
          ensures exclude == Some(id)
        {
          assert id !in others;
        }
      }
    }

    method CreatePlant(id: Orders.PlantId, entry: Entry) returns (r: Result<Orders.PlantId, Error>)
      modifies this
      ensures match Create(old(State()), id, entry)
              case Failure(e) => r == Failure(e) && State() == old(State())
              case Success(c) => r == Success(id) && State() == c
    {
      if id in plants {
        return Failure(IntegrityError);
      }
      var available := EnsureSlugAvailable(entry.slug, None);
      if !available {
        return Failure(SlugTaken);
      }
      history := Release(history, entry.slug);
      plants := plants[id := entry];
      return Success(id);
    }

    method UpdatePlant(id: Orders.PlantId, slug: Option<string>, isActive: Option<bool>)
      returns (r: Result<Orders.PlantId, Error>)
      modifies this
      ensures match Update(old(State()), id, slug, isActive)
              case Failure(e) => r == Failure(e) && State() == old(State())
              case Success(c) => r == Success(id) && State() == c
    {
      if id !in plants {
        return Failure(PlantNotFound);
      }
      var entry := plants[id];
      if slug.Some? && slug.value != entry.slug {
        var available := EnsureSlugAvailable(slug.value, Some(id));
        if !available {
          return Failure(SlugTaken);
        }
        var released := Release(history, slug.value);
        if entry.slug in released {
          return Failure(IntegrityError);
        }
        history := released[entry.slug := id];
        entry := entry.(slug := slug.value);
      }
      if isActive.Some? {
        entry := entry.(isActive := isActive.value);
      }
      plants := plants[id := entry];
      return Success(id);
    }

    /** The live match first, then the history match; with `activeOnly` each only if its plant is active. */
    method GetPlantBySlug(slug: string, activeOnly: bool) returns (r: Result<Orders.PlantId, Error>)
      ensures IsAnswer(State(), slug, activeOnly, r)
    {
      var live := set id | id in plants && plants[id].slug == slug &&
                           Visible(Catalogue(plants, history), id, activeOnly);
      if live != {} {
        var id :| id in live;
        return Success(id);
      }
      forall id | id in plants && plants[id].slug == slug
        ensures !Visible(State(), id, activeOnly)
      {
        assert id !in live;
      }
      if slug in history && Visible(Catalogue(plants, history), history[slug], activeOnly) {
        return Success(history[slug]);
      }
      return Failure(PlantNotFound);
    }
  }

  /** What the two queries of `get_plant_by_slug` may answer on these tables. */
  predicate IsAnswer(c: Catalogue, slug: string, activeOnly: bool, r: Result<Orders.PlantId, Error>) {
    if exists id :: id in c.plants && c.plants[id].slug == slug && Visible(c, id, activeOnly) then
      r.Success? && r.value in c.plants && c.plants[r.value].slug == slug && Visible(c, r.value, activeOnly)
    else if slug in c.history && Visible(c, c.history[slug], activeOnly) then r == Success(c.history[slug])
    else r == Failure(PlantNotFound)
  }

  // ----- Runs -----

  datatype Event =
    | Created(id: Orders.PlantId, entry: Entry)
    | Updated(id: Orders.PlantId, slug: Option<string>, isActive: Option<bool>)

  function Attempt(c: Catalogue, e: Event): Result<Catalogue, Error> {
    match e
    case Created(id, entry) => Create(c, id, entry)
    case Updated(id, slug, isActive) => Update(c, id, slug, isActive)
  }

  /** A refused call changes nothing. */
  function Step(c: Catalogue, e: Event): Catalogue {
    var r := Attempt(c, e);
    if r.Success? then r.value else c
  }

  function Run(es: seq<Event>): Catalogue {
    if es == [] then EMPTY else Step(Run(es[..|es| - 1]), es[|es| - 1])
  }

  /** The event gives `slug` to its plant. */
  predicate Gives(e: Event, slug: string) {
    match e
    case Created(_, entry) => entry.slug == slug
    case Updated(_, s, _) => s == Some(slug)
  }

  /** The plant of the last successful call that gave out `slug`. */
  function LastHolder(es: seq<Event>, slug: string): Option<Orders.PlantId> {
    if es == [] then None
    else
      var before, e := es[..|es| - 1], es[|es| - 1];
      if Attempt(Run(before), e).Success? && Gives(e, slug) then Some(e.id) else LastHolder(before, slug)
  }

  // ----- The two tables are one map -----

  /** `id` is entered for `slug` in one of the tables. */
  predicate EnteredFor(c: Catalogue, slug: string, id: Orders.PlantId) {
    (id in c.plants && c.plants[id].slug == slug) || (slug in c.history && c.history[slug] == id)
  }

  /** Live slugs are unique and disjoint from the history, whose plants exist. */
  ghost predicate TablesOk(c: Catalogue) {
    && (forall i, j :: i in c.plants && j in c.plants && c.plants[i].slug == c.plants[j].slug ==> i == j)
    && (forall i :: i in c.plants ==> c.plants[i].slug !in c.history)
    && (forall s :: s in c.history ==> c.history[s] in c.plants)
  }

  lemma CreateMovesOwnership(c: Catalogue, owner: Orders.PlantId, entry: Entry, slug: string, id: Orders.PlantId)
    requires TablesOk(c) && Create(c, owner, entry).Success?
    ensures var c1 := Create(c, owner, entry).value;
            TablesOk(c1) &&
            (EnteredFor(c1, slug, id) <==> if entry.slug == slug then id == owner else EnteredFor(c, slug, id))
  {
  }

  lemma UpdateKeepsTables(c: Catalogue, owner: Orders.PlantId, s: Option<string>, isActive: Option<bool>)
    requires TablesOk(c)
    ensures Update(c, owner, s, isActive) != Failure(IntegrityError)
    ensures Update(c, owner, s, isActive).Success? ==> TablesOk(Update(c, owner, s, isActive).value)
  {
  }

  lemma UpdateMovesOwnership(
    c: Catalogue, owner: Orders.PlantId, s: Option<string>, isActive: Option<bool>, slug: string, id: Orders.PlantId)
    requires TablesOk(c) && Update(c, owner, s, isActive).Success?
    ensures var c1 := Update(c, owner, s, isActive).value;
            EnteredFor(c1, slug, id) <==> if s == Some(slug) then id == owner else EnteredFor(c, slug, id)
  {
  }

  /** A call on consistent tables keeps them consistent and moves `slug` to the plant it is given to, and only then. */
  lemma {:induction false} StepMovesOwnership(c: Catalogue, e: Event, slug: string, id: Orders.PlantId)
    requires TablesOk(c)
    ensures TablesOk(Step(c, e))
    ensures EnteredFor(Step(c, e), slug, id) <==>
            if Attempt(c, e).Success? && Gives(e, slug) then id == e.id else EnteredFor(c, slug, id)
    ensures e.Updated? ==> Attempt(c, e) != Failure(IntegrityError)
  {
    hide TablesOk, EnteredFor, Create, Update;
    match e
    case Created(owner, entry) =>
      if Create(c, owner, entry).Success? {
        CreateMovesOwnership(c, owner, entry, slug, id);
      }
    case Updated(owner, s, isActive) =>
      UpdateKeepsTables(c, owner, s, isActive);
      if Update(c, owner, s, isActive).Success? {
        UpdateMovesOwnership(c, owner, s, isActive, slug, id);
      }
  }

  /** The tables of a run enter each slug for its last holder and nobody else. */
  lemma {:induction false} TablesAreLastHolders(es: seq<Event>, slug: string, id: Orders.PlantId)
    ensures TablesOk(Run(es))
    ensures EnteredFor(Run(es), slug, id) <==> LastHolder(es, slug) == Some(id)
  {
    hide Attempt, Step, TablesOk, EnteredFor, Gives;
    if es == [] {
      EmptyTables(slug, id);
    } else {
      var before := es[..|es| - 1];
      TablesAreLastHolders(before, slug, id);
      StepMovesOwnership(Run(before), es[|es| - 1], slug, id);
    }
  }

  lemma EmptyTables(slug: string, id: Orders.PlantId)
    ensures TablesOk(EMPTY) && !EnteredFor(EMPTY, slug, id)
  {
  }

  /** `get_plant_by_slug` answers with the plant that most recently held the slug, if it may be shown. */
  lemma {:induction false} LookupFindsLastHolder(
    es: seq<Event>, slug: string, activeOnly: bool, r: Result<Orders.PlantId, Error>)
    requires IsAnswer(Run(es), slug, activeOnly, r)
    ensures LastHolder(es, slug).Some? ==> LastHolder(es, slug).value in Run(es).plants
    ensures var holder := LastHolder(es, slug);
            r == if holder.Some? && (activeOnly ==> Run(es).plants[holder.value].isActive)
                 then Success(holder.value) else Failure(PlantNotFound)
  {
    hide Run, LastHolder;
    var c := Run(es);
    forall id: Orders.PlantId
      ensures TablesOk(c) && (EnteredFor(c, slug, id) <==> LastHolder(es, slug) == Some(id))
    {
      TablesAreLastHolders(es, slug, id);
    }
    if slug in c.history {
      assert EnteredFor(c, slug, c.history[slug]);
    }
    if LastHolder(es, slug).Some? {
      assert EnteredFor(c, slug, LastHolder(es, slug).value);
    }
    if r.Success? {
      assert EnteredFor(c, slug, r.value);
    }
  }

  /** A slug can be taken exactly when nobody holds it live: never used, given up by its last holder, or one's own. */
  lemma {:induction false} TakenExactlyWhileLive(es: seq<Event>, e: Event, slug: string)
    requires if e.Created? then e.entry.slug == slug && e.id !in Run(es).plants
             else e.slug == Some(slug) && e.id in Run(es).plants
    ensures var holder := LastHolder(es, slug);
            Attempt(Run(es), e).Success? <==>
            holder.None? || (holder.value in Run(es).plants && Run(es).plants[holder.value].slug != slug) ||
            (e.Updated? && holder.value == e.id)
  {
    hide Run, LastHolder;
    var c := Run(es);
    forall id: Orders.PlantId
      ensures TablesOk(c) && (EnteredFor(c, slug, id) <==> LastHolder(es, slug) == Some(id))
    {
      TablesAreLastHolders(es, slug, id);
    }
    TablesAreLastHolders(es, slug, 0);
    if e.Updated? {
      UpdateKeepsTables(c, e.id, e.slug, e.isActive);
    }
    if LastHolder(es, slug).Some? {
      assert EnteredFor(c, slug, LastHolder(es, slug).value);
    }
    forall id | id in c.plants && c.plants[id].slug == slug
      ensures LastHolder(es, slug) == Some(id)
    {
      assert EnteredFor(c, slug, id);
    }
  }

  /** Some successful call of `more`, made after `es`, gave `slug` to plant `id`. */
  ghost predicate GivenIn(es: seq<Event>, more: seq<Event>, slug: string, id: Orders.PlantId) {
    exists i: nat :: i < |more| && Attempt(Run(es + more[..i]), more[i]).Success? &&
                     Gives(more[i], slug) && more[i].id == id
  }

  lemma GivenByLonger(es: seq<Event>, more: seq<Event>, slug: string, id: Orders.PlantId)
    requires more != []
    ensures var init, e := more[..|more| - 1], more[|more| - 1];
            GivenIn(es, init, slug, id) || (Attempt(Run(es + init), e).Success? && Gives(e, slug) && e.id == id) ==>
              GivenIn(es, more, slug, id)
  {
    hide Run, Attempt, Gives;
    var init := more[..|more| - 1];
    if GivenIn(es, init, slug, id) {
      var i: nat :| i < |init| && Attempt(Run(es + init[..i]), init[i]).Success? &&
                    Gives(init[i], slug) && init[i].id == id;
      assert more[..i] == init[..i] && more[i] == init[i];
    }
  }

  /** A slug keeps its holder until a successful call gives it to another plant. */
  lemma {:induction false} HolderStays(es: seq<Event>, more: seq<Event>, slug: string)
    requires LastHolder(es, slug).Some?
    ensures var holder := LastHolder(es + more, slug);
            holder.Some? && (holder == LastHolder(es, slug) || GivenIn(es, more, slug, holder.value))
    decreases |more|
  {
    hide Attempt, Gives, GivenIn, Run;
    if more == [] {
      assert es + more == es;
    } else {
      var init := more[..|more| - 1];
      HolderStays(es, init, slug);
      assert (es + more)[..|es + more| - 1] == es + init;
      GivenByLonger(es, more, slug, LastHolder(es + more, slug).value);
    }
  }

  /** A slug that some plant bears goes on resolving after any further calls: to its last holder, which is still that
      plant unless a call gave the slug to another one, and for shoppers exactly while its holder is active. */
  lemma {:induction false} SlugsKeepResolving(
    es: seq<Event>, more: seq<Event>, id: Orders.PlantId, activeOnly: bool, r: Result<Orders.PlantId, Error>)
    requires id in Run(es).plants
    requires IsAnswer(Run(es + more), Run(es).plants[id].slug, activeOnly, r)
    ensures var slug, now := Run(es).plants[id].slug, Run(es + more);
            var holder := LastHolder(es + more, slug);
            holder.Some? && holder.value in now.plants &&
            (holder.value == id || GivenIn(es, more, slug, holder.value)) &&
            r == if activeOnly ==> now.plants[holder.value].isActive then Success(holder.value)
                 else Failure(PlantNotFound)
  {
    hide Run, LastHolder, IsAnswer, GivenIn;
    var slug := Run(es).plants[id].slug;
    TablesAreLastHolders(es, slug, id);
    HolderStays(es, more, slug);
    LookupFindsLastHolder(es + more, slug, activeOnly, r);
  }
}
