/**
  Discovered models and their protocol flags. Instants and durations are nanoseconds;
  every clock read of the code is an explicit argument.
 */
module ModelRegistries {
  import opened Outcomes
  import opened MachineInts

  const DEFAULT_TTL := 300_000_000_000

  datatype ApiProtocol = ChatCompletions | Responses

  datatype ModelCapabilities = ModelCapabilities(
    model: string,
    chatCompletions: bool,
    responses: bool,
    structuredJson: bool,
    toolCalling: bool,
    streaming: bool,
    available: bool)
  {
    predicate Supports(p: ApiProtocol) {
      match p
      case ChatCompletions => chatCompletions
      case Responses => responses
    }

    function PreferredProtocols(): (ps: seq<ApiProtocol>)
      ensures |ps| <= 2
    {
      (if responses then [Responses] else []) + (if chatCompletions then [ChatCompletions] else [])
    }
  }

  function Unavailable(model: string): ModelCapabilities {
    ModelCapabilities(model, false, false, false, false, false, false)
  }

  /** What a first success teaches about a model nobody listed. */
  function Unlisted(model: string): ModelCapabilities {
    ModelCapabilities(model, false, false, true, false, false, true)
  }

  datatype RegistrySnapshot = RegistrySnapshot(
    models: map<string, ModelCapabilities>,
    fetchedAt: nat,
    ttl: nat)

  /** None until the first discovery or the first write. */
  type Registry = Option<RegistrySnapshot>

  predicate IsFresh(r: Registry, now: nat) {
    r.Some? && SaturatingSub(now, r.value.fetchedAt) < r.value.ttl
  }

  function Lookup(r: Registry, model: string): Option<ModelCapabilities> {
    if r.Some? && model in r.value.models then Some(r.value.models[model]) else None
  }

  predicate IsModelAllowed(r: Registry, model: string) {
    r.None? || (model in r.value.models && r.value.models[model].available)
  }

  /** A later row for the same model replaces an earlier one. */
  function ByModel(rows: seq<ModelCapabilities>): map<string, ModelCapabilities> {
    if rows == [] then map[]
    else
      var last := rows[|rows| - 1];
      ByModel(rows[..|rows| - 1])[last.model := last]
  }

  function Discovered(rows: seq<ModelCapabilities>, ttl: nat, now: nat): Registry {
    Some(RegistrySnapshot(ByModel(rows), now, ttl))
  }

  function Opened(r: Registry, now: nat): RegistrySnapshot {
    r.GetOr(RegistrySnapshot(map[], now, DEFAULT_TTL))
  }

  function WithoutModel(r: Registry, model: string, now: nat): Registry {
    var s := Opened(r, now);
    var caps := if model in s.models then s.models[model].(available := false) else Unavailable(model);
    Some(s.(models := s.models[model := caps]))
  }

  function Proven(caps: ModelCapabilities, p: ApiProtocol): ModelCapabilities {
    var usable := caps.(available := true, structuredJson := true);
    match p
    case ChatCompletions => usable.(chatCompletions := true)
    case Responses => usable.(responses := true)
  }

  function WithSuccess(r: Registry, model: string, p: ApiProtocol, now: nat): Registry {
    var s := Opened(r, now);
    var caps := if model in s.models then s.models[model] else Unlisted(model);
    Some(s.(models := s.models[model := Proven(caps, p)]))
  }

  class ModelRegistry {
    var inner: Registry

    constructor ()
      ensures inner == None
    {
      inner := None;
    }

    method ReplaceModels(rows: seq<ModelCapabilities>, ttl: nat, now: nat)
      modifies this
      ensures inner == Discovered(rows, ttl, now)
    {
      var models := map[];
      for i := 0 to |rows|
        invariant models == ByModel(rows[..i])
      {
        assert rows[..i + 1][..i] == rows[..i];
        models := models[rows[i].model := rows[i]];
      }
      assert rows[..|rows|] == rows;
      inner := Some(RegistrySnapshot(models, now, ttl));
    }

    method MarkUnavailable(model: string, now: nat)
      modifies this
      ensures inner == WithoutModel(old(inner), model, now)
    {
      if inner.Some? {
        var models := inner.value.models;
        if model in models {
          inner := Some(inner.value.(models := models[model := models[model].(available := false)]));
        } else {
          inner := Some(inner.value.(models := models[model := Unavailable(model)]));
        }
      } else {
        inner := Some(RegistrySnapshot(map[model := Unavailable(model)], now, DEFAULT_TTL));
      }
    }

    method RecordProtocolSuccess(model: string, p: ApiProtocol, now: nat)
      modifies this
      ensures inner == WithSuccess(old(inner), model, p, now)
    {
      if inner.None? {
        inner := Some(RegistrySnapshot(map[], now, DEFAULT_TTL));
      }
      var models := inner.value.models;
      if model !in models {
        models := models[model := Unlisted(model)];
      }
      var caps := models[model].(available := true, structuredJson := true);
      match p {
        case ChatCompletions => caps := caps.(chatCompletions := true);
        case Responses => caps := caps.(responses := true);
      }
      assert models[model := caps] == Opened(old(inner), now).models[model := caps];
      inner := Some(inner.value.(models := models[model := caps]));
    }
  }

  // ----- What one write does to the other models -----

  ghost predicate OthersKeepTheirStanding(before: Registry, after: Registry, model: string) {
    forall other: string :: other != model ==> IsModelAllowed(after, other) == IsModelAllowed(before, other)
  }

  /** Marking one model leaves the others alone exactly when the registry had been populated. */
  lemma MarkingIsLocalIff(r: Registry, model: string, now: nat)
    ensures !IsModelAllowed(WithoutModel(r, model, now), model)
    ensures OthersKeepTheirStanding(r, WithoutModel(r, model, now), model) <==> r.Some?
  {
    if r.None? {
      var other := model + "'";
      assert other != model;
      assert !IsModelAllowed(WithoutModel(r, model, now), other);
    }
  }

  /** The first success recorded on an empty registry shuts out every other model. */
  lemma SuccessIsLocalIff(r: Registry, model: string, p: ApiProtocol, now: nat)
    ensures IsModelAllowed(WithSuccess(r, model, p, now), model)
    ensures WithSuccess(r, model, p, now).value.models[model].Supports(p)
    ensures OthersKeepTheirStanding(r, WithSuccess(r, model, p, now), model) <==> r.Some?
  {
    if r.None? {
      var other := model + "'";
      assert other != model;
      assert !IsModelAllowed(WithSuccess(r, model, p, now), other);
    }
  }

  /** Discovery decides by the last row of each model, whatever was known before. */
  lemma {:induction false} DiscoveryUsesTheLastRow(rows: seq<ModelCapabilities>, ttl: nat, now: nat, i: nat)
    requires i < |rows| && forall j :: i < j < |rows| ==> rows[j].model != rows[i].model
    ensures Lookup(Discovered(rows, ttl, now), rows[i].model) == Some(rows[i])
    ensures IsModelAllowed(Discovered(rows, ttl, now), rows[i].model) == rows[i].available
  {
    var n := |rows| - 1;
    if i < n {
      assert rows[..n][i] == rows[i];
      DiscoveryUsesTheLastRow(rows[..n], ttl, now, i);
    }
  }
}
