/** PokedexCore's DataProvider: a one-item staging slot for the last fetched
    Pokemon (`appData.pokemon`), the ordered collection of caught Pokemon
    (`appData.pokemons`), the search subscription and the notifier.

    The AppData operations whose code is not part of this model (the parser from a
    fetched Pokemon to a LocalPokemon, `sortByOrder`, `newSpecies`, `directory`)
    are injected as an `AppDataOps` value; `load` becomes the collection it
    produced and `save` is recorded as an effect carrying the collection it saw.
    The subscription that a newer search replaces is a generation token: a
    completion carries the token of its search and is applied only while that
    search is the current, still-open one. */
module PokedexCore {
  import opened Values

  /** The persisted record made by the parser; its fields are not part of this model. */
  type LocalPokemon(==, !new)

  /** The grouping view AppData builds over the collection. */
  type Directory

  /** The fetched record, with the fields the provider reads. */
  datatype Sprites = Sprites(frontDefault: string)
  datatype Pokemon = Pokemon(name: string, weight: int, height: int, sprites: Sprites)

  /** What the search screen shows of the staged record. */
  datatype ScreenPokemon = ScreenPokemon(name: string, weight: int, height: int, iconPath: string)

  /** The AppData and parser operations the provider calls but that are not modelled. */
  datatype AppDataOps = AppDataOps(
    parse: Pokemon -> LocalPokemon,
    sortByOrder: seq<LocalPokemon> -> seq<LocalPokemon>,
    newSpecies: (Option<Pokemon>, seq<LocalPokemon>) -> bool,
    directory: seq<LocalPokemon> -> Directory)

  /** The storage-facing calls the provider makes on AppData, in order. */
  datatype Effect = Loaded | Sorted | Saved(snapshot: seq<LocalPokemon>)

  /** The single outcome the search publisher delivers: a value or a failure
      described by its localized description. */
  datatype Outcome = Value(pokemon: Pokemon) | Failed(description: string)

  /** The provider's whole state. `generation` numbers the searches issued so far,
      `awaiting` says the latest one has not delivered its outcome yet, and
      `notifications` lists the error messages passed to `dataReceived`. */
  datatype State = State(
    staged: Option<Pokemon>,
    pokemons: seq<LocalPokemon>,
    generation: nat,
    awaiting: bool,
    notifierAttached: bool,
    notifications: seq<Option<string>>,
    effects: seq<Effect>)

  /** The state of a freshly built provider, with an empty AppData. */
  function Initial(): (s: State)
    ensures s.staged.None? && s.pokemons == [] && !s.awaiting
    ensures !s.notifierAttached && s.notifications == [] && s.effects == []
  {
    State(None, [], 0, false, false, [], [])
  }

  /** `notifier?.dataReceived(errorMessage:on:)`: nothing happens without a notifier. */
  function Notify(s: State, message: Option<string>): (n: seq<Option<string>>)
    ensures s.notifierAttached ==> n == s.notifications + [message]
    ensures !s.notifierAttached ==> n == s.notifications
  {
    if s.notifierAttached then s.notifications + [message] else s.notifications
  }

  /** A completion bearing `token` belongs to the current, still-open search. */
  predicate IsCurrent(s: State, token: nat) {
    s.awaiting && token == s.generation
  }

  /** `start()`: load, then sort. `stored` is what `load` put in the collection. */
  function StartStep(s: State, stored: seq<LocalPokemon>, ops: AppDataOps): (r: State)
    ensures r.pokemons == ops.sortByOrder(stored)
    ensures r.effects == s.effects + [Loaded, Sorted]
    ensures r.staged == s.staged && r.generation == s.generation && r.awaiting == s.awaiting
    ensures r.notifierAttached == s.notifierAttached && r.notifications == s.notifications
  {
    s.(pokemons := ops.sortByOrder(stored), effects := s.effects + [Loaded, Sorted])
  }

  /** `search(identifier:)`: empty the slot; then, when the service returned a
      publisher (`published`), open a new subscription, which replaces the previous
      one. When it returned nil, the previous subscription is kept and stays live. */
  function SearchStep(s: State, published: bool): (r: State)
    ensures r.staged.None?
    ensures published ==> r.awaiting && r.generation > s.generation
    ensures !published ==> r.awaiting == s.awaiting && r.generation == s.generation
    ensures r.pokemons == s.pokemons && r.effects == s.effects
    ensures r.notifierAttached == s.notifierAttached && r.notifications == s.notifications
  {
    if published then s.(staged := None, generation := s.generation + 1, awaiting := true)
    else s.(staged := None)
  }

  /** The sink's handlers. A value fills the slot and notifies with no message; a
      failure notifies with its description and leaves the slot alone. An outcome
      of a superseded or already finished search changes nothing. */
  function DeliverStep(s: State, token: nat, outcome: Outcome): (r: State)
    ensures !IsCurrent(s, token) ==> r == s
    ensures IsCurrent(s, token) ==> !r.awaiting && r.generation == s.generation
    ensures IsCurrent(s, token) ==> r.pokemons == s.pokemons && r.effects == s.effects
    ensures IsCurrent(s, token) && outcome.Value? ==>
              r.staged == Some(outcome.pokemon) && r.notifications == Notify(s, None)
    ensures IsCurrent(s, token) && outcome.Failed? ==>
              r.staged == s.staged && r.notifications == Notify(s, Some(outcome.description))
    ensures r.notifierAttached == s.notifierAttached
  {
    if !IsCurrent(s, token) then s
    else match outcome
      case Value(p) => s.(staged := Some(p), awaiting := false, notifications := Notify(s, None))
      case Failed(d) => s.(awaiting := false, notifications := Notify(s, Some(d)))
  }

  /** `catchPokemon()`: with an empty slot nothing happens; otherwise the parsed
      record is appended, the collection is sorted and then saved. There is no
      check for a record already present, and the slot stays filled. */
  function CatchStep(s: State, ops: AppDataOps): (r: State)
    ensures s.staged.None? ==> r == s
    ensures s.staged.Some? ==>
              r.pokemons == ops.sortByOrder(s.pokemons + [ops.parse(s.staged.value)])
    ensures s.staged.Some? ==> r.effects == s.effects + [Sorted, Saved(r.pokemons)]
    ensures r.staged == s.staged && r.generation == s.generation && r.awaiting == s.awaiting
    ensures r.notifierAttached == s.notifierAttached && r.notifications == s.notifications
  {
    match s.staged
    case None => s
    case Some(p) =>
      var sorted := ops.sortByOrder(s.pokemons + [ops.parse(p)]);
      s.(pokemons := sorted, effects := s.effects + [Sorted, Saved(sorted)])
  }

  // ---------------------------------------------------------------------------
  // Runs of the provider

  /** What a caller or the network can do to the provider. */
  datatype Event =
    | Started(stored: seq<LocalPokemon>)
    | Searched(identifier: int, published: bool)
    | Delivered(token: nat, outcome: Outcome)
    | Caught
    | NotifierSet(attached: bool)

  function Step(s: State, e: Event, ops: AppDataOps): State {
    match e
    case Started(stored) => StartStep(s, stored, ops)
    case Searched(_, published) => SearchStep(s, published)
    case Delivered(token, outcome) => DeliverStep(s, token, outcome)
    case Caught => CatchStep(s, ops)
    case NotifierSet(attached) => s.(notifierAttached := attached)
  }

  function Run(s: State, events: seq<Event>, ops: AppDataOps): State
    decreases |events|
  {
    if events == [] then s else Run(Step(s, events[0], ops), events[1..], ops)
  }

  /** While a search is open the slot is empty: it was cleared when the search began
      and only that search's value can fill it. */
  ghost predicate SlotInvariant(s: State) {
    s.awaiting ==> s.staged.None?
  }

  lemma StepKeepsSlotInvariant(s: State, e: Event, ops: AppDataOps)
    requires SlotInvariant(s)
    ensures SlotInvariant(Step(s, e, ops))
  {
  }

  /** Every run keeps the slot invariant. */
  lemma {:induction false} RunKeepsSlotInvariant(s: State, events: seq<Event>, ops: AppDataOps)
    requires SlotInvariant(s)
    ensures SlotInvariant(Run(s, events, ops))
    decreases |events|
  {
    if events != [] {
      StepKeepsSlotInvariant(s, events[0], ops);
      RunKeepsSlotInvariant(Step(s, events[0], ops), events[1..], ops);
    }
  }

  lemma {:induction false} RunAppend(s: State, events: seq<Event>, e: Event, ops: AppDataOps)
    ensures Run(s, events + [e], ops) == Step(Run(s, events, ops), e, ops)
    decreases |events|
  {
    if events != [] {
      assert (events + [e])[1..] == events[1..] + [e];
      RunAppend(Step(s, events[0], ops), events[1..], e, ops);
    }
  }

  /** Supersession: once a newer search has been issued, the outcome of an older one
      is dropped whenever it arrives, whatever happened in between. */
  lemma SupersededOutcomeIgnored(s: State, events: seq<Event>, token: nat, outcome: Outcome, ops: AppDataOps)
    requires token < s.generation
    ensures Run(s, events + [Delivered(token, outcome)], ops) == Run(s, events, ops)
  {
    RunAppend(s, events, Delivered(token, outcome), ops);
    RunNeverLowersGeneration(s, events, ops);
  }

  /** The generation never goes down along a run, whatever the state. */
  lemma {:induction false} RunNeverLowersGeneration(s: State, events: seq<Event>, ops: AppDataOps)
    ensures Run(s, events, ops).generation >= s.generation
    decreases |events|
  {
    if events != [] {
      RunNeverLowersGeneration(Step(s, events[0], ops), events[1..], ops);
    }
  }

  /** Searches and their outcomes never touch the collection or storage: only
      `start` and `catchPokemon` do. */
  lemma {:induction false} SearchingLeavesCollection(s: State, events: seq<Event>, ops: AppDataOps)
    requires forall i :: 0 <= i < |events| ==> !events[i].Caught? && !events[i].Started?
    ensures Run(s, events, ops).pokemons == s.pokemons
    ensures Run(s, events, ops).effects == s.effects
    decreases |events|
  {
    if events != [] {
      SearchingLeavesCollection(Step(s, events[0], ops), events[1..], ops);
    }
  }

  /** The search numbered `token` can no longer take an outcome: a newer search has
      been issued, or this one has already been given its outcome. */
  ghost predicate Closed(s: State, token: nat) {
    s.generation > token || (s.generation == token && !s.awaiting)
  }

  lemma StepKeepsClosed(s: State, e: Event, token: nat, ops: AppDataOps)
    requires Closed(s, token)
    ensures Closed(Step(s, e, ops), token)
  {
  }

  /** Once closed, a search stays closed along every run. */
  lemma {:induction false} RunKeepsClosed(s: State, events: seq<Event>, token: nat, ops: AppDataOps)
    requires Closed(s, token)
    ensures Closed(Run(s, events, ops), token)
    decreases |events|
  {
    if events != [] {
      StepKeepsClosed(s, events[0], token, ops);
      RunKeepsClosed(Step(s, events[0], ops), events[1..], token, ops);
    }
  }

  /** Each search notifies at most once: delivering its outcome adds exactly one
      notification when a notifier is set, and a later outcome bearing the same
      token changes nothing, whatever happened in between. */
  lemma NotifiedAtMostOnce(s: State, token: nat, first: Outcome, second: Outcome,
                           events: seq<Event>, ops: AppDataOps)
    requires IsCurrent(s, token)
    ensures var s1 := DeliverStep(s, token, first);
            |s1.notifications| == |s.notifications| + (if s.notifierAttached then 1 else 0)
            && Run(s1, events + [Delivered(token, second)], ops) == Run(s1, events, ops)
  {
    var s1 := DeliverStep(s, token, first);
    RunKeepsClosed(s1, events, token, ops);
    RunAppend(s1, events, Delivered(token, second), ops);
  }

  /** A search that fails leaves the slot empty, so catching afterwards does nothing. */
  lemma FailedSearchThenCatchIsNoOp(s: State, description: string, ops: AppDataOps)
    ensures var s1 := SearchStep(s, true);
            var s2 := DeliverStep(s1, s1.generation, Failed(description));
            s2.staged.None? && CatchStep(s2, ops) == s2
  {
  }

  /** A search that succeeds stages its value, and catching it adds the parsed record. */
  lemma SucceededSearchThenCatch(s: State, p: Pokemon, ops: AppDataOps)
    ensures var s1 := SearchStep(s, true);
            var s2 := DeliverStep(s1, s1.generation, Value(p));
            s2.staged == Some(p)
            && CatchStep(s2, ops).pokemons == ops.sortByOrder(s.pokemons + [ops.parse(p)])
  {
  }

  /** A search whose service returns no publisher keeps the earlier subscription:
      the slot is cleared, yet the earlier search is still current, and its value
      fills the slot when it arrives. */
  lemma UnpublishedSearchKeepsEarlierSubscription(s: State, token: nat, p: Pokemon)
    requires IsCurrent(s, token)
    ensures var s1 := SearchStep(s, false);
            s1.staged.None? && IsCurrent(s1, token)
            && DeliverStep(s1, token, Value(p)).staged == Some(p)
  {
  }

  /** The order `sortByOrder` produces is not part of this model; when it only
      reorders, a catch adds exactly one copy of the parsed record. */
  ghost predicate SortPermutes(ops: AppDataOps) {
    forall xs :: multiset(ops.sortByOrder(xs)) == multiset(xs)
  }

  lemma CatchAddsParsedRecord(s: State, ops: AppDataOps)
    requires SortPermutes(ops)
    requires s.staged.Some?
    ensures multiset(CatchStep(s, ops).pokemons)
            == multiset(s.pokemons) + multiset{ops.parse(s.staged.value)}
    ensures |CatchStep(s, ops).pokemons| == |s.pokemons| + 1
  {
    var xs := s.pokemons + [ops.parse(s.staged.value)];
    assert multiset(ops.sortByOrder(xs)) == multiset(xs);
    assert |ops.sortByOrder(xs)| == |multiset(ops.sortByOrder(xs))|;
  }

  /** Catching twice without a new search adds the same record twice: the provider
      does not deduplicate. */
  lemma CatchTwiceAddsTwice(s: State, ops: AppDataOps)
    requires SortPermutes(ops)
    requires s.staged.Some?
    ensures var twice := CatchStep(CatchStep(s, ops), ops);
            var x := ops.parse(s.staged.value);
            multiset(twice.pokemons)[x] == multiset(s.pokemons)[x] + 2
            && |twice.pokemons| == |s.pokemons| + 2
  {
    CatchAddsParsedRecord(s, ops);
    CatchAddsParsedRecord(CatchStep(s, ops), ops);
  }

  // ---------------------------------------------------------------------------
  // The provider object

  class DataProvider {
    const ops: AppDataOps
    var staged: Option<Pokemon>
    var pokemons: seq<LocalPokemon>
    var generation: nat
    var awaiting: bool
    var notifierAttached: bool
    var notifications: seq<Option<string>>
    var effects: seq<Effect>

    function Snapshot(): State
      reads this
    {
      State(staged, pokemons, generation, awaiting, notifierAttached, notifications, effects)
    }

    /** `init(service:)`: a new, empty AppData and no notifier. */
    constructor (ops: AppDataOps)
      ensures this.ops == ops
      ensures Snapshot() == Initial()
    {
      this.ops := ops;
      staged, pokemons, generation, awaiting := None, [], 0, false;
      notifierAttached, notifications, effects := false, [], [];
    }

    method SetNotifier(attached: bool)
      modifies this
      ensures Snapshot() == old(Snapshot()).(notifierAttached := attached)
    {
      notifierAttached := attached;
    }

    method Start(stored: seq<LocalPokemon>)
      modifies this
      ensures Snapshot() == StartStep(old(Snapshot()), stored, ops)
    {
      pokemons := stored;
      effects := effects + [Loaded];
      pokemons := ops.sortByOrder(pokemons);
      effects := effects + [Sorted];
    }

    /** `published` says whether the service returned a publisher. Returns the token
        the completions of the new subscription carry, or None when there is none. */
    method Search(identifier: int, published: bool) returns (token: Option<nat>)
      modifies this
      ensures Snapshot() == SearchStep(old(Snapshot()), published)
      ensures token.Some? <==> published
      ensures token.Some? ==> token.value == generation
    {
      staged := None;
      if published {
        generation := generation + 1;
        awaiting := true;
        token := Some(generation);
      } else {
        token := None;
      }
    }

    /** The sink: `receiveValue` and the failure branch of `receiveCompletion`. */
    method Receive(token: nat, outcome: Outcome)
      modifies this
      ensures Snapshot() == DeliverStep(old(Snapshot()), token, outcome)
    {
      if awaiting && token == generation {
        match outcome
        case Value(p) =>
          staged := Some(p);
          awaiting := false;
          if notifierAttached { notifications := notifications + [None]; }
        case Failed(d) =>
          awaiting := false;
          if notifierAttached { notifications := notifications + [Some(d)]; }
      }
    }

    method CatchPokemon()
      modifies this
      ensures Snapshot() == CatchStep(old(Snapshot()), ops)
    {
      if staged.None? {
        return;
      }
      var local := ops.parse(staged.value);
      pokemons := pokemons + [local];
      pokemons := ops.sortByOrder(pokemons);
      effects := effects + [Sorted];
      effects := effects + [Saved(pokemons)];
    }

    /** `pokemon()`: the screen view of the staged record, nil when the slot is empty. */
    function PokemonView(): (r: Option<ScreenPokemon>)
      reads this
      ensures r.None? <==> staged.None?
      ensures r.Some? ==> r.value.name == staged.value.name && r.value.weight == staged.value.weight
                          && r.value.height == staged.value.height
                          && r.value.iconPath == staged.value.sprites.frontDefault
    {
      match staged
      case None => None
      case Some(p) => Some(ScreenPokemon(p.name, p.weight, p.height, p.sprites.frontDefault))
    }

    /** `pokemon(at:)`: an index outside the collection traps. */
    function PokemonAt(index: int): (r: LocalPokemon)
      reads this
      requires 0 <= index < |pokemons|
      ensures r in pokemons
      ensures r == Pokemons()[index]
    {
      pokemons[index]
    }

    /** `pokemons()`: the whole collection. */
    function Pokemons(): (r: seq<LocalPokemon>)
      reads this
      ensures r == pokemons
    {
      pokemons
    }

    /** `newSpecies()`: AppData's answer for the staged record and the collection. */
    function NewSpecies(): (b: bool)
      reads this
    {
      ops.newSpecies(staged, pokemons)
    }

    /** `directory()`: AppData's grouping view of the collection. */
    function DirectoryView(): (d: Directory)
      reads this
    {
      ops.directory(pokemons)
    }
  }
}
