/**
 * Values shared by the props resolver and the admin component: the admin
 * options, query parameters, and the JSON documents (schemas, records,
 * messages) that this model passes around without looking inside.
 */
module Types {
  import opened Wrappers

  /** A JSON document handled only by collaborators outside the model, kept as its text. */
  datatype Json = Json(text: string)

  /** The name of a Prisma model, which is also the name of an admin resource. */
  type ModelName = string

  /** `edit` options of one model: the optional list of fields the edit form displays. */
  datatype EditOptions = EditOptions(display: Option<seq<string>>)

  /** Options of one model; `actions` are identified by name. */
  datatype ModelOptions = ModelOptions(edit: Option<EditOptions>, actions: Option<seq<string>>)

  /** The admin options: base path and per-model options (a missing `model` is the empty map). */
  datatype NextAdminOptions = NextAdminOptions(basePath: string, model: map<ModelName, ModelOptions>)

  /** A query parameter value: one string or a repeated parameter. */
  datatype QueryValue = One(s: string) | Many(items: seq<string>)

  type SearchParams = map<string, QueryValue>

  /** JavaScript truthiness of an optional string: absent and "" are both false. */
  predicate Present(s: Option<string>)
  {
    s.Some? && s.value != ""
  }

  /** JavaScript truthiness of a query value: "" is false, an array is always true. */
  predicate Truthy(v: QueryValue)
  {
    match v
    case One(s) => s != ""
    case Many(_) => true
  }

  /** `options?.model?.[resource]`. */
  function ModelOptionsOf(options: NextAdminOptions, resource: ModelName): Option<ModelOptions>
  {
    if resource in options.model then Some(options.model[resource]) else None
  }
}
