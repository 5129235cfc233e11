/**
 * The inversion engine (`InversionEngine` in utils/inversions.py): a static
 * catalog of fault-injection vectors and the lookup that runs one of them.
 *
 * Each catalog entry names its injector by a tag instead of holding a bound
 * method.  Whether an injector returns or raises is an input; what it returns
 * when it does return is fixed by the source.
 */
module Inversions {
  import opened Outcomes

  datatype Category = Critical | Moderate | Low {
    function Name(): string {
      match this
      case Critical => "critical"
      case Moderate => "moderate"
      case Low => "low"
    }
  }

  /** The three injector methods of the engine. */
  datatype Injector = ProcessKill | PortExhaustion | DependencyFailure

  /** One catalog entry. */
  datatype Vector = Vector(
    id: int,
    name: string,
    category: Category,
    target: string,
    inject: Injector,
    expectedResponse: string,
    recoveryTime: string)

  /** `_load_vectors`, in catalog order. */
  const Catalog: seq<Vector> := [
    Vector(1, "Process Kill at 99%", Critical, "build_local", ProcessKill,
      "watchdog triggers, switch to docker-in-docker", "≤5s"),
    Vector(2, "Port Exhaustion", Critical, "port_scanner", PortExhaustion,
      "fail fast, alert, suggest manual override", "immediate"),
    Vector(3, "Dependency Injection Failure", Critical, "all_builds", DependencyFailure,
      "fallback to cached dependencies", "≤10s")
  ]

  /** What an injector returns: a status and the flags it reports. */
  datatype Injection = Injection(status: string, flags: map<string, bool>)

  /** The injector bodies. */
  function Inject(i: Injector): (r: Injection)
    ensures r.status == "injected"
    ensures |r.flags| == 2 && true in r.flags.Values && false !in r.flags.Values
  {
    match i
    case ProcessKill => Injection("injected", map["process_killed" := true, "recovery_triggered" := true])
    case PortExhaustion => Injection("injected", map["ports_exhausted" := true, "fallback_triggered" := true])
    case DependencyFailure => Injection("injected", map["dependency_failed" := true, "cache_fallback_used" := true])
  }

  /** The dictionary `execute_vector` returns, one shape per branch; only
      `Injected` has `success` true. */
  datatype EngineResult =
    | NotFound(error: string)
    | Injected(vector: string, category: string, result: Injection)
    | InjectionRaised(vector: string, error: string)
  {
    predicate Success() { Injected? }
  }

  /** `next(v for v in vectors if v["id"] == id)`: the first entry with the id. */
  function Lookup(vectors: seq<Vector>, id: int): (r: Option<nat>)
    ensures r.Some? ==> r.value < |vectors| && vectors[r.value].id == id
    ensures r.Some? ==> forall j :: 0 <= j < r.value ==> vectors[j].id != id
    ensures r.None? <==> forall j :: 0 <= j < |vectors| ==> vectors[j].id != id
  {
    if vectors == [] then None
    else if vectors[0].id == id then Some(0)
    else match Lookup(vectors[1..], id)
      case None => None
      case Some(i) => Some(i + 1)
  }

  /** `execute_vector` over a catalog: an unknown id fails without running
      any injector; otherwise the injector's output or exception is wrapped. */
  function ExecuteVector(vectors: seq<Vector>, id: int, injector: StepOutcome): (r: EngineResult)
    ensures Lookup(vectors, id).None? ==> r == NotFound("Vector " + IntToString(id) + " not found")
    ensures Lookup(vectors, id).Some? ==>
      var v := vectors[Lookup(vectors, id).value];
      match injector
      case Completes => r == Injected(v.name, v.category.Name(), Inject(v.inject))
      case Raises(msg) => r == InjectionRaised(v.name, msg)
    ensures r.Success() <==> Lookup(vectors, id).Some? && injector.Completes?
  {
    match Lookup(vectors, id)
    case None => NotFound("Vector " + IntToString(id) + " not found")
    case Some(i) =>
      match injector
      case Completes => Injected(vectors[i].name, vectors[i].category.Name(), Inject(vectors[i].inject))
      case Raises(msg) => InjectionRaised(vectors[i].name, msg)
  }

  /** The catalog holds three critical vectors whose ids 1, 2, 3 are distinct. */
  lemma CatalogShape()
    ensures |Catalog| == 3
    ensures forall j :: 0 <= j < |Catalog| ==> Catalog[j].id == j + 1 && Catalog[j].category == Critical
    ensures forall j, k :: 0 <= j < k < |Catalog| ==> Catalog[j].id != Catalog[k].id
  {
  }

  /** Every id 1..3 is found at its own position; every other id is absent. */
  lemma {:induction false} CatalogLookup(id: int)
    ensures 1 <= id <= 3 ==> Lookup(Catalog, id) == Some(id - 1)
    ensures !(1 <= id <= 3) ==> Lookup(Catalog, id).None?
  {
    CatalogShape();
    var r := Lookup(Catalog, id);
    if 1 <= id <= 3 {
      assert Catalog[id - 1].id == id;
      assert r.Some?;
      assert !(r.value < id - 1) && !(r.value > id - 1);
    }
  }

  /** Against the real catalog: a known id succeeds exactly when its injector
      returns, and the result carries that vector's name and category. */
  lemma CatalogVectorRuns(id: int, injector: StepOutcome)
    requires 1 <= id <= 3
    ensures injector.Completes? ==>
      ExecuteVector(Catalog, id, injector) == Injected(Catalog[id - 1].name, "critical", Inject(Catalog[id - 1].inject))
    ensures injector.Raises? ==>
      ExecuteVector(Catalog, id, injector) == InjectionRaised(Catalog[id - 1].name, injector.message)
  {
    CatalogLookup(id);
  }

  /** An id outside the catalog always fails, whatever the injector would do. */
  lemma UnknownVectorNeverInjects(id: int, injector: StepOutcome)
    requires !(1 <= id <= 3)
    ensures ExecuteVector(Catalog, id, injector) == NotFound("Vector " + IntToString(id) + " not found")
    ensures !ExecuteVector(Catalog, id, injector).Success()
  {
    CatalogLookup(id);
  }
}
