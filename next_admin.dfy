/**
 * The admin component: the guard on `options`, the values it derives from
 * its props (actions, model schema, title, icon) and the choice of the main
 * view in `renderMainComponent`: list, form, a dashboard, or nothing.
 *
 * `getSchemaForResource` and `getCustomInputs` are uninterpreted functions,
 * the fields of `Helpers`; layout and markup are not modelled.
 */
module NextAdmin {
  import opened Wrappers
  import opened Types

  /** The `data` prop: absent, an array of rows, or one record (an object, so truthy). */
  datatype Data = NoData | Rows(rows: seq<Json>) | Record(record: Json)

  /** The `dashboard` prop: absent or falsy, a function to call, or a node to render. */
  datatype DashboardProp = NoDashboard | DashboardFunction(renders: Json) | DashboardNode(node: Json)

  /** The props `renderMainComponent` and the derivations before it read. */
  datatype ComponentProps = ComponentProps(
    isAppDir: bool,
    options: Option<NextAdminOptions>,
    resource: Option<ModelName>,
    schema: Option<Json>,
    data: Data,
    total: Option<int>,
    resources: Option<seq<ModelName>>,
    dashboard: DashboardProp,
    actions: Option<seq<string>>,
    resourcesTitles: Option<map<string, string>>,
    resourcesIcons: Option<map<string, string>>,
    customInputs: Option<Json>)

  datatype Helpers = Helpers(
    schemaForResource: (Json, ModelName) -> Option<Json>,
    customInputsFor: (Option<ModelName>, Option<NextAdminOptions>) -> Option<Json>)

  /** What the component renders as its main content. */
  datatype View =
    | ListView(resource: ModelName, rows: seq<Json>, total: int, modelOptions: Option<ModelOptions>,
               title: Option<string>, actions: Option<seq<string>>, icon: Option<string>)
    | FormView(data: Data, schema: Option<Json>, formResource: Option<ModelName>, modelOptions: Option<ModelOptions>,
               title: Option<string>, customInputs: Option<Json>, actions: Option<seq<string>>, icon: Option<string>)
    | CalledDashboard(node: Json)
    | CustomDashboard(node: Json)
    | DefaultDashboard(resources: seq<ModelName>)
    | Nothing

  datatype RenderError = OptionsRequired

  /**
   * `actionsProp || options?.model?.[resource]?.actions`: an `actions` prop
   * (an array, truthy even when empty) wins over the model's configured actions.
   */
  function Actions(p: ComponentProps): (a: Option<seq<string>>)
    ensures p.actions.Some? ==> a == p.actions
    ensures p.actions.None? && a.Some? ==>
      Present(p.resource) && p.options.Some? && p.resource.value in p.options.value.model
      && a == p.options.value.model[p.resource.value].actions
    ensures p.actions.None? && Present(p.resource) && p.options.Some? && p.resource.value in p.options.value.model ==>
      a == p.options.value.model[p.resource.value].actions
  {
    if p.actions.Some? then p.actions
    else if Present(p.resource) && p.options.Some? then
      match ModelOptionsOf(p.options.value, p.resource.value)
      case None => None
      case Some(m) => m.actions
    else None
  }

  /** `resource && schema ? getSchemaForResource(schema, resource) : undefined`. */
  function ModelSchema(h: Helpers, p: ComponentProps): (s: Option<Json>)
    ensures s.Some? ==> Present(p.resource) && p.schema.Some?
    ensures Present(p.resource) && p.schema.Some? ==> s == h.schemaForResource(p.schema.value, p.resource.value)
  {
    if Present(p.resource) && p.schema.Some? then h.schemaForResource(p.schema.value, p.resource.value) else None
  }

  /** The key `resource!` looks up: an absent resource becomes the key "undefined". */
  function ResourceKey(resource: Option<ModelName>): string
  {
    if resource.Some? then resource.value else "undefined"
  }

  /** `resourcesTitles?.[resource!] ?? resource`: a custom title, or else the resource name. */
  function ResourceTitle(p: ComponentProps): (t: Option<string>)
    ensures p.resourcesTitles.Some? && ResourceKey(p.resource) in p.resourcesTitles.value ==>
      t == Some(p.resourcesTitles.value[ResourceKey(p.resource)])
    ensures p.resourcesTitles.None? || ResourceKey(p.resource) !in p.resourcesTitles.value ==> t == p.resource
  {
    if p.resourcesTitles.Some? && ResourceKey(p.resource) in p.resourcesTitles.value then
      Some(p.resourcesTitles.value[ResourceKey(p.resource)])
    else p.resource
  }

  /** `resourcesIcons?.[resource!]`. */
  function ResourceIcon(p: ComponentProps): (i: Option<string>)
    ensures i.Some? <==> p.resourcesIcons.Some? && ResourceKey(p.resource) in p.resourcesIcons.value
    ensures i.Some? ==> i.value == p.resourcesIcons.value[ResourceKey(p.resource)]
  {
    if p.resourcesIcons.Some? && ResourceKey(p.resource) in p.resourcesIcons.value then
      Some(p.resourcesIcons.value[ResourceKey(p.resource)])
    else None
  }

  /** The custom inputs of the form: the prop under the App router, else `getCustomInputs`. */
  function CustomInputs(h: Helpers, p: ComponentProps): (c: Option<Json>)
    ensures p.isAppDir ==> c == p.customInputs
    ensures !p.isAppDir ==> c == h.customInputsFor(p.resource, p.options)
  {
    if p.isAppDir then p.customInputs else h.customInputsFor(p.resource, p.options)
  }

  /** `options?.model && options?.model[resource]`. */
  function ModelOptionsFor(p: ComponentProps, resource: ModelName): Option<ModelOptions>
  {
    if p.options.Some? then ModelOptionsOf(p.options.value, resource) else None
  }

  /** The list condition: array data, a resource and a defined total. */
  predicate ShowsList(p: ComponentProps)
  {
    p.data.Rows? && Present(p.resource) && p.total.Some?
  }

  /** The form condition: one record, or no data but a model schema. */
  predicate ShowsForm(h: Helpers, p: ComponentProps)
  {
    p.data.Record? || (ModelSchema(h, p).Some? && p.data.NoData?)
  }

  /**
   * The main view. Without options under the Pages router the component
   * throws. Otherwise the list wins when its condition holds, then the form;
   * failing both, a dashboard is shown when `resources` is given (a
   * `dashboard` function is called, a `dashboard` node is rendered, else the
   * default dashboard), and nothing at all without `resources`.
   */
  function Render(h: Helpers, p: ComponentProps): (r: Result<View, RenderError>)
    ensures r.Err? <==> !p.isAppDir && p.options.None?
    ensures r.Ok? ==> (r.value.ListView? <==> ShowsList(p))
    ensures r.Ok? ==> (r.value.FormView? <==> !ShowsList(p) && ShowsForm(h, p))
    ensures r.Ok? && r.value.ListView? ==> r.value.rows == p.data.rows && Some(r.value.total) == p.total
    ensures r.Ok? && r.value.FormView? ==> r.value.schema == ModelSchema(h, p) && r.value.data == p.data
    ensures r.Ok? && (r.value.ListView? || r.value.FormView?) ==>
      r.value.actions == Actions(p) && r.value.title == ResourceTitle(p)
    ensures r.Ok? && r.value.FormView? ==> r.value.customInputs == CustomInputs(h, p)
    ensures r.Ok? && r.value.ListView? ==>
      Some(r.value.resource) == p.resource && r.value.modelOptions == ModelOptionsFor(p, r.value.resource)
      && r.value.icon == ResourceIcon(p)
    ensures r.Ok? && r.value.FormView? ==>
      r.value.formResource == p.resource && r.value.modelOptions == ModelOptionsFor(p, ResourceKey(p.resource))
      && r.value.icon == ResourceIcon(p)
    ensures r.Ok? && !ShowsList(p) && !ShowsForm(h, p) ==> (r.value == Nothing <==> p.resources.None?)
    ensures r.Ok? && !ShowsList(p) && !ShowsForm(h, p) && p.resources.Some? ==>
      && (p.dashboard.DashboardFunction? ==> r.value == CalledDashboard(p.dashboard.renders))
      && (p.dashboard.DashboardNode? ==> r.value == CustomDashboard(p.dashboard.node))
      && (p.dashboard.NoDashboard? ==> r.value == DefaultDashboard(p.resources.value))
  {
    if !p.isAppDir && p.options.None? then
      Err(OptionsRequired)
    else if ShowsList(p) then
      var resource := p.resource.value;
      Ok(ListView(resource, p.data.rows, p.total.value, ModelOptionsFor(p, resource),
                  ResourceTitle(p), Actions(p), ResourceIcon(p)))
    else if ShowsForm(h, p) then
      Ok(FormView(p.data, ModelSchema(h, p), p.resource, ModelOptionsFor(p, ResourceKey(p.resource)),
                  ResourceTitle(p), CustomInputs(h, p), Actions(p), ResourceIcon(p)))
    else if p.resources.Some? then
      match p.dashboard
      case DashboardFunction(node) => Ok(CalledDashboard(node))
      case DashboardNode(node) => Ok(CustomDashboard(node))
      case NoDashboard => Ok(DefaultDashboard(p.resources.value))
    else
      Ok(Nothing)
  }

  /**
   * Without a resource, the title and the icon are both looked up under the
   * key "undefined"; the title then falls back to no title at all.
   */
  lemma {:induction false} AbsentResourceUsesUndefinedKey(p: ComponentProps)
    requires p.resource.None?
    ensures p.resourcesTitles.Some? && "undefined" in p.resourcesTitles.value ==>
      ResourceTitle(p) == Some(p.resourcesTitles.value["undefined"])
    ensures (p.resourcesTitles.None? || "undefined" !in p.resourcesTitles.value) ==> ResourceTitle(p).None?
    ensures ResourceIcon(p).Some? <==> p.resourcesIcons.Some? && "undefined" in p.resourcesIcons.value
  {
  }

  /** Array data without a total is never shown as a form, whatever the other props. */
  lemma {:induction false} RowsWithoutTotalNeverForm(h: Helpers, p: ComponentProps)
    requires p.data.Rows? && p.total.None?
    ensures Render(h, p).Ok? ==> !Render(h, p).value.ListView? && !Render(h, p).value.FormView?
  {
  }

  /** A form for a new record (no data) needs a model schema, hence both a resource and a schema. */
  lemma {:induction false} BlankFormNeedsResourceAndSchema(h: Helpers, p: ComponentProps)
    requires Render(h, p).Ok? && Render(h, p).value.FormView? && p.data.NoData?
    ensures Present(p.resource) && p.schema.Some?
    ensures Render(h, p).value.schema.Some?
  {
  }
}
