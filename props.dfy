/**
 * `getPropsFromParams`: resolves the optional route segments and the query
 * parameters of an admin page into the props the admin component renders
 * (defaults for the dashboard, a list payload, or an edit/creation form
 * payload), and builds the Prisma field selection for the edit form.
 *
 * Prisma, JSON parsing and the helpers of the server utilities are not
 * modelled: they are the function-valued fields of `Server`, and the model
 * says only what is done with their results.
 */
module Props {
  import opened Wrappers
  import opened Types

  /** The identifier field, always selected. */
  const IdField: string := "id"

  /** The second route segment that opens a blank creation form. */
  const NewMarker: string := "new"

  /** The `message` prop: `null`, left `undefined` (JSON parsing threw), or the parsed value. */
  datatype Message = NullMessage | UndefinedMessage | Parsed(value: Json)

  /** The `error` prop: undefined, the `error` query parameter, or the error of the list fetch. */
  datatype ErrorField = NoError | QueryError(value: QueryValue) | FetchError(text: string)

  /** The submit action bound to the schema and route segments it was created with. */
  datatype BoundAction = BoundAction(handler: string, schema: Json, params: Option<seq<string>>)

  /** What the props add to the defaults. */
  datatype Payload =
    | Defaults
    | ListPayload(resource: ModelName, rows: seq<Json>, total: int, schema: Json)
    | FormPayload(resource: ModelName, record: Option<Json>, schema: Json, dmmfSchema: Option<seq<string>>)

  datatype AdminProps = AdminProps(
    resources: seq<ModelName>,
    basePath: string,
    isAppDir: bool,
    action: Option<BoundAction>,
    message: Message,
    error: ErrorField,
    payload: Payload)

  /** The two ways the call throws. */
  datatype PropsError = ActionRequired | RecordNotFound

  /** What `getMappedDataList` yields: rows, total count, and an error it caught. */
  datatype ListResult = ListResult(data: seq<Json>, total: int, error: Option<string>)

  /** The collaborators, each one an uninterpreted function. */
  datatype Server = Server(
    getResources: NextAdminOptions -> seq<ModelName>,
    parseJson: string -> Option<Json>,
    resourceFromParams: (seq<string>, seq<ModelName>) -> Option<ModelName>,
    resourceIdFromParam: (string, ModelName) -> Option<Json>,
    modelFields: ModelName -> Option<seq<string>>,
    fillRelationInSchema: (Json, ModelName, Option<SearchParams>, NextAdminOptions) -> Json,
    mappedDataList: (ModelName, NextAdminOptions, Option<SearchParams>, Option<string>, bool) -> ListResult,
    findUniqueOrThrow: (ModelName, Json, Option<set<string>>) -> Option<Json>,
    transformData: (Json, ModelName, Option<EditOptions>) -> Json,
    transformSchema: (Json, ModelName, Option<EditOptions>) -> Json)

  /** The arguments of `getPropsFromParams`; the action is identified by name. */
  datatype Request = Request(
    params: Option<seq<string>>,
    searchParams: Option<SearchParams>,
    options: NextAdminOptions,
    schema: Json,
    action: Option<string>,
    isAppDir: bool,
    locale: Option<string>)

  /** `String(value)`: a repeated parameter becomes its items joined by commas. */
  function QueryText(v: QueryValue): string
  {
    match v
    case One(s) => s
    case Many(items) => JoinWithCommas(items)
  }

  function JoinWithCommas(items: seq<string>): string
  {
    if |items| == 0 then ""
    else if |items| == 1 then items[0]
    else items[0] + "," + JoinWithCommas(items[1..])
  }

  /** Whether `searchParams?.message` is truthy. */
  predicate HasMessage(searchParams: Option<SearchParams>)
  {
    searchParams.Some? && "message" in searchParams.value && Truthy(searchParams.value["message"])
  }

  /**
   * The `message` prop: `null` without a (truthy) message parameter, left
   * `undefined` when parsing it fails (the failure is swallowed), and the
   * parsed value otherwise.
   */
  function ParseMessage(server: Server, searchParams: Option<SearchParams>): (m: Message)
    ensures m == NullMessage <==> !HasMessage(searchParams)
    ensures m == UndefinedMessage <==>
      HasMessage(searchParams) && server.parseJson(QueryText(searchParams.value["message"])).None?
    ensures m.Parsed? ==> Some(m.value) == server.parseJson(QueryText(searchParams.value["message"]))
  {
    if !HasMessage(searchParams) then NullMessage
    else match server.parseJson(QueryText(searchParams.value["message"]))
      case None => UndefinedMessage
      case Some(value) => Parsed(value)
  }

  /** `options?.model?.[resource]?.edit`. */
  function EditOf(options: NextAdminOptions, resource: ModelName): (e: Option<EditOptions>)
    ensures resource !in options.model ==> e.None?
    ensures resource in options.model ==> e == options.model[resource].edit
  {
    match ModelOptionsOf(options, resource)
    case None => None
    case Some(m) => m.edit
  }

  /** The field names a selection built from `names` by the `reduce` from `{ id: true }` holds. */
  function SelectionSet(names: seq<string>): set<string>
  {
    {IdField} + set f | f in names
  }

  /**
   * The `reduce` that builds a Prisma `select` object: start from
   * `{ id: true }` and set `acc[name] = true` for each name in turn.
   */
  method BuildSelect(names: seq<string>) returns (acc: map<string, bool>)
    ensures acc.Keys == SelectionSet(names)
    ensures forall f :: f in acc <==> f == IdField || f in names
    ensures forall f :: f in acc ==> acc[f]
  {
    acc := map[IdField := true];
    for i := 0 to |names|
      invariant acc.Keys == {IdField} + set j | 0 <= j < i :: names[j]
      invariant forall f :: f in acc ==> acc[f]
    {
      acc := acc[names[i] := true];
    }
    assert forall f :: f in names ==> exists j :: 0 <= j < |names| && names[j] == f;
  }

  /**
   * The selection for fetching one record to edit: the `edit.display` fields
   * when they are configured (even an empty list), otherwise every field of
   * the Prisma model, always with `id`; without either there is no `select`.
   */
  function EditSelection(modelFields: Option<seq<string>>, edit: Option<EditOptions>): (sel: Option<set<string>>)
    ensures sel.Some? ==> IdField in sel.value
    ensures edit.Some? && edit.value.display.Some? ==>
      sel.Some? && forall f :: f in sel.value <==> f == IdField || f in edit.value.display.value
    ensures (edit.None? || edit.value.display.None?) && modelFields.Some? ==>
      sel.Some? && forall f :: f in sel.value <==> f == IdField || f in modelFields.value
    ensures sel.None? <==> (edit.None? || edit.value.display.None?) && modelFields.None?
  {
    var display := if edit.Some? then edit.value.display else None;
    var selectedFields := if modelFields.Some? then Some(SelectionSet(modelFields.value)) else None;
    var editSelect := if display.Some? then Some(SelectionSet(display.value)) else None;
    if editSelect.Some? then editSelect else selectedFields
  }

  /** The props every outcome starts from (`defaultProps`). */
  function DefaultProps(server: Server, req: Request): (d: AdminProps)
    ensures d.payload == Defaults
    ensures d.resources == server.getResources(req.options) && d.basePath == req.options.basePath
    ensures d.isAppDir == req.isAppDir
    ensures d.action.Some? <==> req.action.Some?
    ensures d.action.Some? ==> d.action.value == BoundAction(req.action.value, req.schema, req.params)
    ensures d.message == ParseMessage(server, req.searchParams)
    ensures d.error == NoError <==> req.searchParams.None? || "error" !in req.searchParams.value
    ensures d.error != NoError ==> d.error == QueryError(req.searchParams.value["error"])
  {
    AdminProps(
      server.getResources(req.options),
      req.options.basePath,
      req.isAppDir,
      if req.action.Some? then Some(BoundAction(req.action.value, req.schema, req.params)) else None,
      ParseMessage(server, req.searchParams),
      if req.searchParams.Some? && "error" in req.searchParams.value then QueryError(req.searchParams.value["error"]) else NoError,
      Defaults)
  }

  /** The fields of the defaults that every resolved props value keeps. */
  predicate KeepsDefaults(p: AdminProps, defaults: AdminProps)
  {
    && p.resources == defaults.resources
    && p.basePath == defaults.basePath
    && p.isAppDir == defaults.isAppDir
    && p.action == defaults.action
    && p.message == defaults.message
  }

  /** Whether the route names a resource: `params` given and a (non-empty) resource found from it. */
  function ResolvedResource(server: Server, req: Request): Option<ModelName>
  {
    if req.params.None? then None
    else
      var resource := server.resourceFromParams(req.params.value, server.getResources(req.options));
      if Present(resource) then resource else None
  }

  /**
   * `getPropsFromParams`. Throws only when the App router is used without an
   * action, or when the record to edit does not exist; every other outcome
   * keeps the resources, base path, router flag, bound action and message of
   * the defaults.
   */
  function GetPropsFromParams(server: Server, req: Request): (r: Result<AdminProps, PropsError>)
    ensures r == Err(ActionRequired) <==> req.isAppDir && req.action.None?
    ensures r == Err(RecordNotFound) ==>
      && ResolvedResource(server, req).Some?
      && |req.params.value| == 2
      && server.resourceIdFromParam(req.params.value[1], ResolvedResource(server, req).value).Some?
    ensures r.Ok? ==> KeepsDefaults(r.value, DefaultProps(server, req))
    ensures r.Ok? ==> (r.value.action.Some? <==> req.action.Some?)
  {
    if req.isAppDir && req.action.None? then
      Err(ActionRequired)
    else
      var defaults := DefaultProps(server, req);
      if req.params.None? then
        Ok(defaults)
      else
        var params := req.params.value;
        var resource := server.resourceFromParams(params, defaults.resources);
        if !Present(resource) then
          Ok(defaults)
        else if |params| == 1 then
          var schema := server.fillRelationInSchema(req.schema, resource.value, req.searchParams, req.options);
          var list := server.mappedDataList(resource.value, req.options, req.searchParams, req.locale, req.isAppDir);
          Ok(defaults.(
            error := if list.error.Some? then FetchError(list.error.value) else NoError,
            payload := ListPayload(resource.value, list.data, list.total, schema)))
        else if |params| == 2 then
          var resourceId := server.resourceIdFromParam(params[1], resource.value);
          var modelFields := server.modelFields(resource.value);
          var edit := EditOf(req.options, resource.value);
          var schema := server.transformSchema(req.schema, resource.value, edit);
          if resourceId.Some? then
            match server.findUniqueOrThrow(resource.value, resourceId.value, EditSelection(modelFields, edit))
            case None => Err(RecordNotFound)
            case Some(record) =>
              var data := server.transformData(record, resource.value, edit);
              Ok(defaults.(payload := FormPayload(resource.value, Some(data), schema, modelFields)))
          else if params[1] == NewMarker then
            Ok(defaults.(payload := FormPayload(resource.value, None, schema, modelFields)))
          else
            Ok(defaults)
        else
          Ok(defaults)
  }

  /** Whether the call has an action or does not need one. */
  predicate ActionSatisfied(req: Request)
  {
    !req.isAppDir || req.action.Some?
  }

  /**
   * The props are exactly the defaults when the route names no resource, has
   * neither one nor two segments, or has two whose second is neither a record
   * id nor "new" — and only then.
   */
  lemma {:induction false} DefaultsExactlyWhenUnrouted(server: Server, req: Request)
    requires ActionSatisfied(req)
    ensures var r := GetPropsFromParams(server, req);
      var resource := ResolvedResource(server, req);
      var fallsBack :=
        || resource.None?
        || (|req.params.value| != 1 && |req.params.value| != 2)
        || (|req.params.value| == 2
            && server.resourceIdFromParam(req.params.value[1], resource.value).None?
            && req.params.value[1] != NewMarker);
      && (fallsBack ==> r == Ok(DefaultProps(server, req)))
      && (r.Ok? && r.value.payload.Defaults? ==> fallsBack)
  {
  }

  /**
   * One segment naming a resource gives the list payload from the list fetch,
   * with the fetch error (or none) in place of the query's error; it never throws.
   */
  lemma {:induction false} ListRoute(server: Server, req: Request)
    requires ActionSatisfied(req)
    requires ResolvedResource(server, req).Some? && |req.params.value| == 1
    ensures var r := GetPropsFromParams(server, req);
      var resource := ResolvedResource(server, req).value;
      var list := server.mappedDataList(resource, req.options, req.searchParams, req.locale, req.isAppDir);
      && r.Ok?
      && r.value.payload == ListPayload(resource, list.data, list.total,
           server.fillRelationInSchema(req.schema, resource, req.searchParams, req.options))
      && (r.value.error == NoError <==> list.error.None?)
      && (list.error.Some? ==> r.value.error == FetchError(list.error.value))
  {
  }

  /**
   * Two segments with a record id fetch exactly that record with the edit
   * selection (which holds `id`, by `EditSelection`); a missing record makes the call throw, a
   * found one gives the form payload with the transformed record.
   */
  lemma {:induction false} EditRoute(server: Server, req: Request)
    requires ActionSatisfied(req)
    requires ResolvedResource(server, req).Some? && |req.params.value| == 2
    requires server.resourceIdFromParam(req.params.value[1], ResolvedResource(server, req).value).Some?
    ensures var r := GetPropsFromParams(server, req);
      var resource := ResolvedResource(server, req).value;
      var id := server.resourceIdFromParam(req.params.value[1], resource).value;
      var edit := EditOf(req.options, resource);
      var select := EditSelection(server.modelFields(resource), edit);
      var found := server.findUniqueOrThrow(resource, id, select);
      && (r == Err(RecordNotFound) <==> found.None?)
      && (found.Some? ==> r == Ok(DefaultProps(server, req).(payload := FormPayload(
            resource,
            Some(server.transformData(found.value, resource, edit)),
            server.transformSchema(req.schema, resource, edit),
            server.modelFields(resource)))))
  {
  }

  /**
   * Two segments whose second is "new" and not a record id give a creation
   * form for that resource: the defaults with no record, the transformed
   * schema and the model fields.
   */
  lemma {:induction false} NewRoute(server: Server, req: Request)
    requires ActionSatisfied(req)
    requires ResolvedResource(server, req).Some? && |req.params.value| == 2
    requires req.params.value[1] == NewMarker
    requires server.resourceIdFromParam(NewMarker, ResolvedResource(server, req).value).None?
    ensures var r := GetPropsFromParams(server, req);
      var resource := ResolvedResource(server, req).value;
      r == Ok(DefaultProps(server, req).(payload := FormPayload(
        resource,
        None,
        server.transformSchema(req.schema, resource, EditOf(req.options, resource)),
        server.modelFields(resource))))
  {
  }
}
