/** The export mapping of `src/shared/utils/resourceToTemplate.ts`: tasks,
    dashboards (with their cells, views and variables) and variables become a
    versioned template document; a stored template becomes an export document.

    Objects whose keys the source picks from are `Fields` maps, so that
    `_.pick` is a map restriction. The template document itself is a record
    whose optional members are the keys the blank template does not have. */
module ResourceToTemplate {
  import opened Common

  // ---------------------------------------------------------------- resources

  /** `TemplateType`: the `type` tag of every template entry. */
  datatype TemplateType = LabelType | TaskType | DashboardType | ViewType | CellType | VariableType

  datatype Label = Label(id: string, name: string, properties: Json)

  /** A task: its own fields (`status`, `name`, `flux`, ...) and its labels. */
  datatype Task = Task(fields: Fields, labels: seq<Label>)

  datatype View = View(id: string, fields: Fields)

  datatype Cell = Cell(id: string, fields: Fields)

  datatype Variable = Variable(id: string, fields: Fields)

  /** A dashboard; `labels` and `cells` may be absent (`getDeep` then yields `[]`). */
  datatype Dashboard = Dashboard(fields: Fields, labels: Option<seq<Label>>, cells: Option<seq<Cell>>)

  // ---------------------------------------------------------------- documents

  datatype Relation = Relation(kind: TemplateType, id: string)

  /** `{data: [...]}` (a list of relations) or `{data: relation}` (the view of a cell). */
  datatype Related = Many(list: seq<Relation>) | One(item: Relation)

  type Relationships = map<TemplateType, Related>

  /** An entry of `content.included`. */
  datatype Included = Included(kind: TemplateType, id: string, attributes: Fields, relationships: Option<Relationships>)

  /** `content.data`; every member is absent in the blank template except the type. */
  datatype Data = Data(kind: Option<TemplateType>, id: Option<string>, attributes: Option<Fields>,
                       relationships: Option<Relationships>)

  datatype Content = Content(data: Data, included: seq<Included>)

  datatype Meta = Meta(version: string, name: Option<string>, description: Option<string>)

  /** `DocumentCreate`: the document the mapping produces and the export sends. */
  datatype Document = Document(meta: Meta, content: Content, labels: seq<string>, orgID: Option<string>)

  /** `ITemplate`: a template as stored, with its id and full labels. */
  datatype StoredTemplate = StoredTemplate(id: string, meta: Meta, content: Content, labels: seq<Label>)

  datatype ExportError =
    /** `viewToRelationship(undefined)` throws a `TypeError` when no view has the cell's id. */
    | MissingView(cellID: string)

  // ---------------------------------------------------------------- helpers

  /** `_.pick(obj, keys)`: exactly the listed keys that the object has, values unchanged. */
  function Pick(obj: Fields, keys: set<string>): (r: Fields)
    ensures r.Keys == obj.Keys * keys
    ensures forall k :: k in r ==> r[k] == obj[k]
  {
    map k | k in obj && k in keys :: obj[k]
  }

  /** `_.get(obj, 'name', '')`; a name that is not a string is taken as absent. */
  function NameOf(obj: Fields): (name: string)
    ensures "name" in obj && obj["name"].JStr? ==> name == obj["name"].s
    ensures !("name" in obj && obj["name"].JStr?) ==> name == ""
  {
    if "name" in obj && obj["name"].JStr? then obj["name"].s else ""
  }

  function MapSeq<X, Y>(f: X -> Y, xs: seq<X>): (ys: seq<Y>)
    ensures |ys| == |xs| && forall i :: 0 <= i < |xs| ==> ys[i] == f(xs[i])
  {
    seq(|xs|, i requires 0 <= i < |xs| => f(xs[i]))
  }

  /** `viewableLabels`: the labels the UI shows, whatever test it applies, in their order
      (see `ViewableLabelsAppend`). */
  function ViewableLabels(labels: seq<Label>, viewable: Label -> bool): (r: seq<Label>)
    ensures |r| <= |labels|
    ensures forall l :: l in r <==> l in labels && viewable(l)
  {
    if labels == [] then []
    else if viewable(labels[0]) then [labels[0]] + ViewableLabels(labels[1..], viewable)
    else ViewableLabels(labels[1..], viewable)
  }

  /** Filtering keeps the order: the viewable labels of a concatenation are those of
      the first part followed by those of the second. */
  lemma {:induction false} ViewableLabelsAppend(a: seq<Label>, b: seq<Label>, viewable: Label -> bool)
    ensures ViewableLabels(a + b, viewable) == ViewableLabels(a, viewable) + ViewableLabels(b, viewable)
  {
    if a == [] {
      assert a + b == b;
    } else {
      assert (a + b)[0] == a[0];
      assert (a + b)[1..] == a[1..] + b;
      ViewableLabelsAppend(a[1..], b, viewable);
    }
  }

  const CurrentTemplateVersion := "1"
  const TaskKeys := {"status", "name", "flux", "every", "cron", "offset"}
  const ViewKeys := {"properties", "name"}
  const CellKeys := {"x", "y", "w", "h"}
  const VariableKeys := {"name", "arguments", "selected"}
  const DashboardKeys := {"name", "description"}

  /** `${name}-Template`. */
  function TemplateName(name: string): (t: string)
    ensures |t| == |name| + 9 && t[..|name|] == name && t[|name|..] == "-Template"
  {
    name + "-Template"
  }

  function Description(source: string, name: string): (r: string)
    ensures source == "task" ==> r == "template created from task: " + name
    ensures source == "variable" ==> r == "template created from variable: " + name
    ensures source == "dashboard" ==> r == "template created from dashboard: " + name
  {
    assert "template created from " + "task" + ": " == "template created from task: ";
    assert "template created from " + "variable" + ": " == "template created from variable: ";
    assert "template created from " + "dashboard" + ": " == "template created from dashboard: ";
    "template created from " + source + ": " + name
  }

  // ---------------------------------------------------------------- blank templates

  function BlankTemplate(): (t: Document)
    ensures t.meta == Meta("1", None, None)
    ensures t.content == Content(Data(None, None, None, None), [])
    ensures t.labels == [] && t.orgID == None
  {
    Document(Meta(CurrentTemplateVersion, None, None), Content(Data(None, None, None, None), []), [], None)
  }

  /** The blank template with `content.data.type` set. */
  function BlankTypedTemplate(kind: TemplateType): (t: Document)
    ensures t.meta.version == "1" && t.meta.name == None && t.meta.description == None
    ensures t.content.data == Data(Some(kind), None, None, None)
    ensures t.content.included == [] && t.labels == [] && t.orgID == None
  {
    var base := BlankTemplate();
    base.(content := base.content.(data := base.content.data.(kind := Some(kind))), labels := [])
  }

  function BlankTaskTemplate(): (t: Document)
    ensures t.meta == Meta("1", None, None) && t.labels == [] && t.orgID == None
    ensures t.content == Content(Data(Some(TaskType), None, None, None), [])
  {
    BlankTypedTemplate(TaskType)
  }

  function BlankVariableTemplate(): (t: Document)
    ensures t.meta == Meta("1", None, None) && t.labels == [] && t.orgID == None
    ensures t.content == Content(Data(Some(VariableType), None, None, None), [])
  {
    BlankTypedTemplate(VariableType)
  }

  function BlankDashboardTemplate(): (t: Document)
    ensures t.meta == Meta("1", None, None) && t.labels == [] && t.orgID == None
    ensures t.content == Content(Data(Some(DashboardType), None, None, None), [])
  {
    BlankTypedTemplate(DashboardType)
  }

  // ---------------------------------------------------------------- labels

  function LabelToRelationship(l: Label): (r: Relation)
    ensures r.kind == LabelType && r.id == l.id
  {
    Relation(LabelType, l.id)
  }

  function LabelToIncluded(l: Label): (r: Included)
    ensures r.kind == LabelType && r.id == l.id && r.relationships == None
    ensures r.attributes.Keys == {"name", "properties"}
    ensures r.attributes["name"] == JStr(l.name) && r.attributes["properties"] == l.properties
  {
    Included(LabelType, l.id, map["name" := JStr(l.name), "properties" := l.properties], None)
  }

  // ---------------------------------------------------------------- tasks

  function TaskToTemplate(task: Task, base: Document, viewable: Label -> bool): (t: Document)
    ensures t.meta.name == Some(NameOf(task.fields) + "-Template")
    ensures t.meta.description == Some("template created from task: " + NameOf(task.fields))
    ensures t.meta.version == base.meta.version && t.labels == base.labels && t.orgID == base.orgID
    ensures t.content.data.kind == Some(TaskType) && t.content.data.id == base.content.data.id
    // attributes: only those of the six task keys that are present, copied unchanged
    ensures t.content.data.attributes == Some(Pick(task.fields, TaskKeys))
    // included: the base's entries, then one entry per viewable label
    ensures var labels := ViewableLabels(task.labels, viewable);
      && |t.content.included| == |base.content.included| + |labels|
      && t.content.included[..|base.content.included|] == base.content.included
      && (forall i :: 0 <= i < |labels| ==>
            t.content.included[|base.content.included| + i] == LabelToIncluded(labels[i]))
    // relationships: only labels, the same labels in the same order
    ensures var labels := ViewableLabels(task.labels, viewable);
      && t.content.data.relationships.Some?
      && t.content.data.relationships.value.Keys == {LabelType}
      && t.content.data.relationships.value[LabelType] == Many(MapSeq(LabelToRelationship, labels))
  {
    var taskName := NameOf(task.fields);
    var labels := ViewableLabels(task.labels, viewable);
    base.(
      meta := base.meta.(name := Some(TemplateName(taskName)), description := Some(Description("task", taskName))),
      content := base.content.(
        data := base.content.data.(
          kind := Some(TaskType),
          attributes := Some(Pick(task.fields, TaskKeys)),
          relationships := Some(map[LabelType := Many(MapSeq(LabelToRelationship, labels))])),
        included := base.content.included + MapSeq(LabelToIncluded, labels)))
  }

  /** The label relationships and the new `included` entries of a task template come
      from the same labels: equal in number and equal id by id. */
  lemma TaskLabelsAgree(task: Task, base: Document, viewable: Label -> bool)
    ensures var t := TaskToTemplate(task, base, viewable);
      var rels := t.content.data.relationships.value[LabelType].list;
      var added := t.content.included[|base.content.included|..];
      && |rels| == |added|
      && forall i :: 0 <= i < |rels| ==> rels[i].id == added[i].id && rels[i].kind == added[i].kind == LabelType
  {
  }

  /** From the blank task template, `included` holds exactly the viewable labels. */
  lemma BlankTaskTemplateIncludesLabels(task: Task, viewable: Label -> bool)
    ensures TaskToTemplate(task, BlankTaskTemplate(), viewable).content.included
         == MapSeq(LabelToIncluded, ViewableLabels(task.labels, viewable))
    ensures TaskToTemplate(task, BlankTaskTemplate(), viewable).meta.version == "1"
  {
    var t := TaskToTemplate(task, BlankTaskTemplate(), viewable);
    assert t.content.included == [] + MapSeq(LabelToIncluded, ViewableLabels(task.labels, viewable));
  }

  // ---------------------------------------------------------------- views and cells

  function ViewToIncluded(v: View): (r: Included)
    ensures r.kind == ViewType && r.id == v.id && r.relationships == None
    ensures r.attributes == Pick(v.fields, ViewKeys)
  {
    Included(ViewType, v.id, Pick(v.fields, ViewKeys), None)
  }

  function ViewToRelationship(v: View): (r: Relation)
    ensures r.kind == ViewType && r.id == v.id
  {
    Relation(ViewType, v.id)
  }

  /** `views.find(v => v.id === id)`: the first view with that id. */
  function FindView(views: seq<View>, id: string): (r: Option<View>)
    ensures r.None? <==> forall i :: 0 <= i < |views| ==> views[i].id != id
    ensures r.Some? ==> exists i :: 0 <= i < |views| && views[i] == r.value && r.value.id == id &&
                                    forall j :: 0 <= j < i ==> views[j].id != id
  {
    if views == [] then None
    else if views[0].id == id then Some(views[0])
    else
      var r := FindView(views[1..], id);
      if r.Some? then
        ghost var i :| 0 <= i < |views[1..]| && views[1..][i] == r.value && r.value.id == id &&
                       forall j :: 0 <= j < i ==> views[1..][j].id != id;
        assert views[i + 1] == r.value;
        r
      else r
  }

  /** Some view has the cell's id. */
  predicate HasView(c: Cell, views: seq<View>) {
    FindView(views, c.id).Some?
  }

  /** Index of the first cell without a view, or `|cells|` when every cell has one. */
  function FirstMissing(cells: seq<Cell>, views: seq<View>): (k: nat)
    ensures k <= |cells|
    ensures forall j :: 0 <= j < k ==> HasView(cells[j], views)
    ensures k < |cells| ==> !HasView(cells[k], views)
  {
    if cells == [] || !HasView(cells[0], views) then 0 else 1 + FirstMissing(cells[1..], views)
  }

  /** `cellToIncluded`: the cell's `x`, `y`, `w`, `h` and a relation to the view with the cell's id. */
  function CellToIncluded(c: Cell, views: seq<View>): (r: Result<Included, ExportError>)
    ensures r.Success? <==> HasView(c, views)
    ensures r.Failure? ==> r.error == MissingView(c.id)
    ensures r.Success? ==>
      && r.value.kind == CellType && r.value.id == c.id
      && r.value.attributes == Pick(c.fields, CellKeys)
      && r.value.relationships == Some(map[ViewType := One(Relation(ViewType, c.id))])
  {
    match FindView(views, c.id)
    case None => Failure(MissingView(c.id))
    case Some(view) =>
      Success(Included(CellType, c.id, Pick(c.fields, CellKeys), Some(map[ViewType := One(ViewToRelationship(view))])))
  }

  function CellToRelationship(c: Cell): (r: Relation)
    ensures r.kind == CellType && r.id == c.id
  {
    Relation(CellType, c.id)
  }

  /** `cells.map(c => cellToIncluded(c, views))`, which throws at the first cell without a view. */
  function CellsToIncluded(cells: seq<Cell>, views: seq<View>): (r: Result<seq<Included>, ExportError>)
    ensures r.Success? <==> FirstMissing(cells, views) == |cells|
    ensures r.Success? ==>
      (|r.value| == |cells| && forall i :: 0 <= i < |cells| ==> CellToIncluded(cells[i], views) == Success(r.value[i]))
    ensures r.Failure? ==> FirstMissing(cells, views) < |cells| &&
                           r.error == MissingView(cells[FirstMissing(cells, views)].id)
  {
    if cells == [] then Success([])
    else match CellToIncluded(cells[0], views)
      case Failure(e) => Failure(e)
      case Success(first) =>
        assert forall i :: 1 <= i < |cells| ==> cells[i] == cells[1..][i - 1];
        match CellsToIncluded(cells[1..], views)
        case Failure(e) =>
          assert FirstMissing(cells, views) == 1 + FirstMissing(cells[1..], views);
          Failure(e)
        case Success(rest) => Success([first] + rest)
  }

  // ---------------------------------------------------------------- variables

  function VariableToIncluded(v: Variable): (r: Included)
    ensures r.kind == VariableType && r.id == v.id && r.relationships == None
    ensures r.attributes == Pick(v.fields, VariableKeys)
  {
    Included(VariableType, v.id, Pick(v.fields, VariableKeys), None)
  }

  function VariableToRelationship(v: Variable): (r: Relation)
    ensures r.kind == VariableType && r.id == v.id
  {
    Relation(VariableType, v.id)
  }

  function VariableToTemplate(v: Variable, base: Document): (t: Document)
    ensures t.meta.name == Some(NameOf(v.fields) + "-Template")
    ensures t.meta.description == Some("template created from variable: " + NameOf(v.fields))
    ensures t.meta.version == base.meta.version && t.labels == base.labels && t.orgID == base.orgID
    ensures t.content.data == Data(Some(VariableType), Some(v.id), Some(Pick(v.fields, VariableKeys)), Some(map[]))
    ensures t.content.included == []
  {
    var variableName := NameOf(v.fields);
    var variableData := VariableToIncluded(v);
    base.(
      meta := base.meta.(name := Some(TemplateName(variableName)), description := Some(Description("variable", variableName))),
      content := base.content.(
        data := base.content.data.(
          kind := Some(variableData.kind),
          id := Some(variableData.id),
          attributes := Some(variableData.attributes),
          relationships := Some(map[])),
        included := []))
  }

  /** The variable template does not depend on what the base template had in `included`
      or in its data. */
  lemma VariableTemplateIgnoresBaseContent(v: Variable, base: Document, content: Content)
    ensures VariableToTemplate(v, base.(content := content)) == VariableToTemplate(v, base)
  {
  }

  // ---------------------------------------------------------------- dashboards

  /** `getDeep(dashboard, 'labels', [])`. */
  function Labels(d: Dashboard): (labels: seq<Label>)
    ensures d.labels.Some? ==> labels == d.labels.value
    ensures d.labels.None? ==> labels == []
  {
    if d.labels.Some? then d.labels.value else []
  }

  /** `getDeep(dashboard, 'cells', [])`. */
  function Cells(d: Dashboard): (cells: seq<Cell>)
    ensures d.cells.Some? ==> cells == d.cells.value
    ensures d.cells.None? ==> cells == []
  {
    if d.cells.Some? then d.cells.value else []
  }

  function DashboardToTemplate(d: Dashboard, views: seq<View>, variables: seq<Variable>, base: Document)
    : (r: Result<Document, ExportError>)
    ensures r.Success? <==> forall i :: 0 <= i < |Cells(d)| ==> HasView(Cells(d)[i], views)
    ensures r.Failure? ==> r == Failure(CellsToIncluded(Cells(d), views).error)
    ensures r.Success? ==>
      && r.value.meta.name == Some(NameOf(d.fields) + "-Template")
      && r.value.meta.description == Some("template created from dashboard: " + NameOf(d.fields))
      && r.value.meta.version == base.meta.version
      && r.value.content.data.kind == Some(DashboardType)
      && r.value.content.data.attributes == Some(Pick(d.fields, DashboardKeys))
      && r.value.content.data.id == base.content.data.id
      && r.value.labels == base.labels && r.value.orgID == base.orgID
    // included: the base's entries, then labels, cells, views and variables (see `DashboardIncluded`)
    ensures r.Success? ==>
      r.value.content.included
        == DashboardIncluded(base.content.included, Labels(d), CellsToIncluded(Cells(d), views).value, views, variables)
  {
    var dashboardName := NameOf(d.fields);
    var labels := Labels(d);
    match CellsToIncluded(Cells(d), views)
    case Failure(e) => Failure(e)
    case Success(includedCells) =>
      Success(base.(
        meta := base.meta.(name := Some(TemplateName(dashboardName)), description := Some(Description("dashboard", dashboardName))),
        content := base.content.(
          data := base.content.data.(
            kind := Some(DashboardType),
            attributes := Some(Pick(d.fields, DashboardKeys)),
            relationships := Some(DashboardRelations(labels, Cells(d), variables))),
          included := DashboardIncluded(base.content.included, labels, includedCells, views, variables))))
  }

  /** The positions of five consecutive blocks of a concatenation. */
  lemma FiveBlocks<T>(s: seq<T>, b: seq<T>, l: seq<T>, c: seq<T>, w: seq<T>, v: seq<T>)
    requires s == b + l + c + w + v
    ensures |s| == |b| + |l| + |c| + |w| + |v|
    ensures s[..|b|] == b
    ensures s[|b|..|b| + |l|] == l
    ensures s[|b| + |l|..|b| + |l| + |c|] == c
    ensures s[|b| + |l| + |c|..|b| + |l| + |c| + |w|] == w
    ensures s[|b| + |l| + |c| + |w|..] == v
  {
    assert s == b + (l + (c + (w + v)));
    assert s[|b|..] == l + (c + (w + v));
    assert s[|b| + |l|..] == c + (w + v);
    assert s[|b| + |l| + |c|..] == w + v;
  }

  /** The `included` list of a dashboard template: base, labels, cells, views and variables, each block in input order. */
  function DashboardIncluded(base: seq<Included>, labels: seq<Label>, cells: seq<Included>, views: seq<View>, variables: seq<Variable>)
    : (inc: seq<Included>)
    ensures var b, l, c, w := |base|, |labels|, |cells|, |views|;
      && |inc| == b + l + c + w + |variables|
      && inc[..b] == base
      && inc[b..b + l] == MapSeq(LabelToIncluded, labels)
      && inc[b + l..b + l + c] == cells
      && inc[b + l + c..b + l + c + w] == MapSeq(ViewToIncluded, views)
      && inc[b + l + c + w..] == MapSeq(VariableToIncluded, variables)
  {
    var L, W, V := MapSeq(LabelToIncluded, labels), MapSeq(ViewToIncluded, views), MapSeq(VariableToIncluded, variables);
    FiveBlocks(base + L + cells + W + V, base, L, cells, W, V);
    base + L + cells + W + V
  }

  /** The label, cell and variable relationships list the ids of their inputs in order. */
  lemma DashboardRelationships(d: Dashboard, views: seq<View>, variables: seq<Variable>, base: Document)
    requires DashboardToTemplate(d, views, variables, base).Success?
    ensures var rels := DashboardToTemplate(d, views, variables, base).value.content.data.relationships;
      && rels.Some? && rels.value.Keys == {LabelType, CellType, VariableType}
      && rels.value[LabelType].Many? && |rels.value[LabelType].list| == |Labels(d)|
      && (forall i :: 0 <= i < |Labels(d)| ==> rels.value[LabelType].list[i] == Relation(LabelType, Labels(d)[i].id))
      && rels.value[CellType].Many? && |rels.value[CellType].list| == |Cells(d)|
      && (forall i :: 0 <= i < |Cells(d)| ==> rels.value[CellType].list[i] == Relation(CellType, Cells(d)[i].id))
      && rels.value[VariableType].Many? && |rels.value[VariableType].list| == |variables|
      && (forall i :: 0 <= i < |variables| ==> rels.value[VariableType].list[i] == Relation(VariableType, variables[i].id))
  {
    assert DashboardToTemplate(d, views, variables, base).value.content.data.relationships
        == Some(DashboardRelations(Labels(d), Cells(d), variables));
  }

  /** The relationships of a dashboard template: its labels, cells and variables, in order. */
  function DashboardRelations(labels: seq<Label>, cells: seq<Cell>, variables: seq<Variable>): (rels: Relationships)
    ensures rels.Keys == {LabelType, CellType, VariableType}
    ensures rels[LabelType] == Many(MapSeq(LabelToRelationship, labels))
    ensures rels[CellType] == Many(MapSeq(CellToRelationship, cells))
    ensures rels[VariableType] == Many(MapSeq(VariableToRelationship, variables))
  {
    map[
      LabelType := Many(MapSeq(LabelToRelationship, labels)),
      CellType := Many(MapSeq(CellToRelationship, cells)),
      VariableType := Many(MapSeq(VariableToRelationship, variables))]
  }

  // ---------------------------------------------------------------- export

  /** `templateToExport`: keep `meta` and `content`, replace the labels by their names. */
  function TemplateToExport(t: StoredTemplate): (d: Document)
    ensures d.meta == t.meta && d.content == t.content && d.orgID == None
    ensures |d.labels| == |t.labels| && forall i :: 0 <= i < |t.labels| ==> d.labels[i] == t.labels[i].name
  {
    Document(t.meta, t.content, MapSeq((l: Label) => l.name, t.labels), None)
  }

  /** Two stored templates that differ only in their id export to the same document. */
  lemma ExportDropsId(t: StoredTemplate, id: string)
    ensures TemplateToExport(t.(id := id)) == TemplateToExport(t)
  {
  }

  function AddOrgIDToTemplate(d: Document, orgID: string): (r: Document)
    ensures r.orgID == Some(orgID)
    ensures r.meta == d.meta && r.content == d.content && r.labels == d.labels
  {
    d.(orgID := Some(orgID))
  }

  /** Adding an org id twice keeps the last one; nothing but `orgID` ever changes. */
  lemma AddOrgIDOverrides(d: Document, a: string, b: string)
    ensures AddOrgIDToTemplate(AddOrgIDToTemplate(d, a), b) == AddOrgIDToTemplate(d, b)
    ensures AddOrgIDToTemplate(d, a).(orgID := d.orgID) == d
  {
  }
}
