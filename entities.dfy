/** The catalog records the UI receives from the sources API and keeps in
    its store (`sources.sourceTypes`, `sources.appTypes`), and the source
    record with its attached application links. Only the fields the
    helpers and the applications card read are kept. */
module Entities {
  import opened Common

  /** A source type: `id`, internal `name`, and the `product_name` shown to users. */
  datatype SourceType = SourceType(id: string, name: string, product_name: string)

  /** An application type: `id`, internal `name`, the `display_name` shown
      to users, and the names of the source types it can be attached to. */
  datatype AppType = AppType(id: string, name: string, display_name: string,
                             supported_source_types: seq<string>)

  /** An application attached to a source. `paused_at` is a timestamp or
      null; `isDeleting` is absent (false) unless a removal is under way. */
  datatype Application = Application(id: string, application_type_id: string,
                                     paused_at: Option<string>, isDeleting: bool)

  /** A source, with the application links attached to it. */
  datatype Source = Source(id: string, source_type_id: string, applications: seq<Application>)

  /** `sourceTypes.find((type) => type.id === id)` */
  function FindSourceType(types: seq<SourceType>, id: string): (r: Option<SourceType>)
    ensures r.None? <==> forall j :: 0 <= j < |types| ==> types[j].id != id
    ensures r.Some? ==> exists i :: 0 <= i < |types| && types[i] == r.value && r.value.id == id &&
                                    forall j :: 0 <= j < i ==> types[j].id != id
  {
    Find(types, (t: SourceType) => t.id == id)
  }

  /** `appTypes.find((type) => type.id === id)` */
  function FindAppType(types: seq<AppType>, id: string): (r: Option<AppType>)
    ensures r.None? <==> forall j :: 0 <= j < |types| ==> types[j].id != id
    ensures r.Some? ==> exists i :: 0 <= i < |types| && types[i] == r.value && r.value.id == id &&
                                    forall j :: 0 <= j < i ==> types[j].id != id
  {
    Find(types, (t: AppType) => t.id == id)
  }
}
