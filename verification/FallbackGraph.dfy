/**
  * The fallback graph shared by the gateway's walk and the controller's
  * validator: providers, their declared fallback edges, and the wire formats
  * an edge may join.
  */
module FallbackGraph {
  const ANTHROPIC := "anthropic"
  const OPENAI := "openai"
  const OPENAI_COMPATIBLE := "openai-compatible"

  /** One entry of a provider's fallback list, with its model map. */
  datatype Edge = Edge(target: string, modelMap: map<string, string>)

  datatype Provider = Provider(name: string, kind: string, models: seq<string>, fallback: seq<Edge>)

  type Store = map<string, Provider>

  ghost predicate Named(store: Store) {
    forall n :: n in store ==> store[n].name == n
  }

  /** The model an edge hands on: mapped when the map has a nonempty entry. */
  function EdgeModel(edge: Edge, parentModel: string): string {
    if parentModel in edge.modelMap && edge.modelMap[parentModel] != ""
    then edge.modelMap[parentModel]
    else parentModel
  }

  /** An entry is handed on where there is a nonempty one, and it is a model of the target where the map is valid. */
  lemma EdgeModelMaps(edge: Edge, parentModel: string, target: Provider)
    ensures parentModel in edge.modelMap && edge.modelMap[parentModel] != "" ==>
              EdgeModel(edge, parentModel) == edge.modelMap[parentModel]
    ensures parentModel !in edge.modelMap || edge.modelMap[parentModel] == "" ==>
              EdgeModel(edge, parentModel) == parentModel
    ensures (forall m :: m in edge.modelMap ==> edge.modelMap[m] in target.models)
            && "" !in target.models && (parentModel in edge.modelMap || parentModel in target.models) ==>
              EdgeModel(edge, parentModel) in target.models
  {
  }

  /** The wire format a provider type speaks. */
  function ProviderFormat(kind: string): string {
    if kind == OPENAI_COMPATIBLE then OPENAI else kind
  }

  /** The translator's name for a provider type's format, "" when it has none. */
  function FormatForType(kind: string): string {
    var format := ProviderFormat(kind);
    if format == ANTHROPIC || format == OPENAI then format else ""
  }

  predicate Translatable(kind: string) {
    kind == ANTHROPIC || kind == OPENAI || kind == OPENAI_COMPATIBLE
  }

  predicate FormatCompatible(parent: string, child: string) {
    parent == child || (Translatable(parent) && Translatable(child))
  }

  predicate CrossesFormat(parent: string, child: string) {
    ProviderFormat(parent) != ProviderFormat(child)
  }

  /** Compatibility along each edge carries over to the two ends of a path. */
  lemma CompatibleTransitive(a: string, b: string, c: string)
    requires FormatCompatible(a, b) && FormatCompatible(b, c)
    ensures FormatCompatible(a, c)
  {
  }

  /** Rule 12 allows exactly same-type edges and edges between types the translator speaks. */
  lemma CompatibleIsTranslatable(parent: string, child: string)
    ensures FormatCompatible(parent, child) <==>
            parent == child || (FormatForType(parent) != "" && FormatForType(child) != "")
    ensures FormatCompatible(parent, child) && CrossesFormat(parent, child) ==>
            FormatForType(parent) != "" && FormatForType(child) != "" && FormatForType(parent) != FormatForType(child)
  {
  }
}
