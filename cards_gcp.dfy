/**
 * The Adaptive Card that lists GCP instances: a fixed header row of three
 * columns (index, instance name, project) and a second row whose three
 * columns receive one text block per instance.
 */
module GcpCards {
  import opened Wrappers
  import opened Strings
  import opened GcpModels

  /** The largest number of instances one card is meant to hold. */
  const GcpInstancesCardMaxInstances: nat := 50

  /**
   * A `TextBlock` element. `isSubtle` is None where the JSON object has no
   * `isSubtle` key (the first header block).
   */
  datatype TextBlock = TextBlock(text: string, wrap: bool, isSubtle: Option<bool>)

  datatype Column = Column(width: string, items: seq<TextBlock>)

  datatype ColumnSet = ColumnSet(columns: seq<Column>)

  datatype Card = Card(schema: string, version: string, body: seq<ColumnSet>)

  const IdxColumnWidth: string := "10"
  const NameColumnWidth: string := "50"
  const ProjectColumnWidth: string := "40"

  /** The header row: an empty index cell and the subtle titles "Instance" and "Project". */
  function HeaderRow(): ColumnSet
  {
    ColumnSet([
      Column(IdxColumnWidth, [TextBlock("", true, None)]),
      Column(NameColumnWidth, [TextBlock("Instance", true, Some(true))]),
      Column(ProjectColumnWidth, [TextBlock("Project", true, Some(true))])
    ])
  }

  /** `GCP_INSTANCES_CARD_JSON_TEMPLATE` once parsed: the header row and a row of three empty columns. */
  function Template(): Card
  {
    Card(
      "http://adaptivecards.io/schemas/adaptive-card.json",
      "1.2",
      [HeaderRow(),
       ColumnSet([Column(IdxColumnWidth, []), Column(NameColumnWidth, []), Column(ProjectColumnWidth, [])])])
  }

  /** `_get_text_block_dict`: a text block with every key present. */
  function TextBlockDict(text: string, wrap: bool, isSubtle: bool): TextBlock
  {
    TextBlock(text, wrap, Some(isSubtle))
  }

  /** `_get_instance_idx_dict`: the subtle, unwrapped label `f"{idx}."`. */
  function InstanceIdxDict(idx: int): TextBlock
  {
    TextBlockDict(IntToString(idx) + ".", false, true)
  }

  /** `_get_instance_name_dict`: the name, unwrapped and not subtle. */
  function InstanceNameDict(name: string): TextBlock
  {
    TextBlockDict(name, false, false)
  }

  /** `_get_instance_project_dict`: the project, unwrapped and not subtle. */
  function InstanceProjectDict(project: string): TextBlock
  {
    TextBlockDict(project, false, false)
  }

  /** Different indices get different labels, so no two rows of a card carry the same number. */
  lemma InstanceIdxDictInjective(i: int, j: int)
    requires InstanceIdxDict(i) == InstanceIdxDict(j)
    ensures i == j
  {
    var a := IntToString(i);
    var b := IntToString(j);
    assert a + "." == b + ".";
    assert a == (a + ".")[..|a|];
    assert |a| == |b|;
    assert b == (b + ".")[..|b|];
    IntToStringInjective(i, j);
  }

  /**
   * The three data columns hold one cell per instance, in order: its label
   * numbered from `startIdx`, its name and its project.
   */
  predicate HoldsInstances(idxItems: seq<TextBlock>, nameItems: seq<TextBlock>, projectItems: seq<TextBlock>,
                           instances: seq<Instance>, startIdx: int)
  {
    && |idxItems| == |nameItems| == |projectItems| == |instances|
    && (forall k :: 0 <= k < |instances| ==> idxItems[k] == InstanceIdxDict(startIdx + k))
    && (forall k :: 0 <= k < |instances| ==> nameItems[k] == InstanceNameDict(instances[k].name))
    && (forall k :: 0 <= k < |instances| ==> projectItems[k] == InstanceProjectDict(instances[k].project))
  }

  /** The index cells for `count` instances numbered from `startIdx`, in order. */
  function IndexCells(count: nat, startIdx: int): seq<TextBlock>
  {
    if count == 0 then [] else IndexCells(count - 1, startIdx) + [InstanceIdxDict(startIdx + count - 1)]
  }

  /** The name cells of `instances`, in order. */
  function NameCells(instances: seq<Instance>): seq<TextBlock>
  {
    if instances == [] then [] else NameCells(instances[..|instances| - 1]) + [InstanceNameDict(instances[|instances| - 1].name)]
  }

  /** The project cells of `instances`, in order. */
  function ProjectCells(instances: seq<Instance>): seq<TextBlock>
  {
    if instances == [] then [] else ProjectCells(instances[..|instances| - 1]) + [InstanceProjectDict(instances[|instances| - 1].project)]
  }

  /** Index cell k is labelled `startIdx + k`. */
  lemma {:induction false} IndexCellsAt(count: nat, startIdx: int)
    ensures |IndexCells(count, startIdx)| == count
    ensures forall k :: 0 <= k < count ==> IndexCells(count, startIdx)[k] == InstanceIdxDict(startIdx + k)
  {
    if count > 0 {
      IndexCellsAt(count - 1, startIdx);
      var cells := IndexCells(count, startIdx);
      assert forall k :: 0 <= k < count - 1 ==> cells[k] == IndexCells(count - 1, startIdx)[k];
    }
  }

  /** Name cell k is the name of instance k. */
  lemma {:induction false} NameCellsAt(instances: seq<Instance>)
    ensures |NameCells(instances)| == |instances|
    ensures forall k :: 0 <= k < |instances| ==> NameCells(instances)[k] == InstanceNameDict(instances[k].name)
  {
    if instances != [] {
      var init := instances[..|instances| - 1];
      NameCellsAt(init);
      var cells := NameCells(instances);
      assert forall k :: 0 <= k < |init| ==> cells[k] == NameCells(init)[k] && instances[k] == init[k];
    }
  }

  /** Project cell k is the project of instance k. */
  lemma {:induction false} ProjectCellsAt(instances: seq<Instance>)
    ensures |ProjectCells(instances)| == |instances|
    ensures forall k :: 0 <= k < |instances| ==> ProjectCells(instances)[k] == InstanceProjectDict(instances[k].project)
  {
    if instances != [] {
      var init := instances[..|instances| - 1];
      ProjectCellsAt(init);
      var cells := ProjectCells(instances);
      assert forall k :: 0 <= k < |init| ==> cells[k] == ProjectCells(init)[k] && instances[k] == init[k];
    }
  }

  /** Cell k of each column belongs to instance k: its label `startIdx + k`, its name, its project. */
  lemma CellsHoldInstances(instances: seq<Instance>, startIdx: int)
    ensures HoldsInstances(IndexCells(|instances|, startIdx), NameCells(instances), ProjectCells(instances), instances, startIdx)
  {
    IndexCellsAt(|instances|, startIdx);
    NameCellsAt(instances);
    ProjectCellsAt(instances);
  }

  /** The loop of `get_gcp_instances_card`, on the three (initially empty) data columns. */
  method FillInstanceColumns(instances: seq<Instance>, startIdx: int)
    returns (idxItems: seq<TextBlock>, nameItems: seq<TextBlock>, projectItems: seq<TextBlock>)
    ensures idxItems == IndexCells(|instances|, startIdx)
    ensures nameItems == NameCells(instances)
    ensures projectItems == ProjectCells(instances)
  {
    idxItems, nameItems, projectItems := [], [], [];
    for i := 0 to |instances|
      invariant idxItems == IndexCells(i, startIdx)
      invariant nameItems == NameCells(instances[..i])
      invariant projectItems == ProjectCells(instances[..i])
    {
      assert instances[..i + 1][..i] == instances[..i];
      assert NameCells(instances[..i + 1]) == NameCells(instances[..i]) + [InstanceNameDict(instances[i].name)];
      assert ProjectCells(instances[..i + 1]) == ProjectCells(instances[..i]) + [InstanceProjectDict(instances[i].project)];
      idxItems := idxItems + [InstanceIdxDict(startIdx + i)];
      nameItems := nameItems + [InstanceNameDict(instances[i].name)];
      projectItems := projectItems + [InstanceProjectDict(instances[i].project)];
    }
    assert instances[..|instances|] == instances;
  }

  /**
   * `get_gcp_instances_card`: append, for each instance in order, its label
   * numbered from `startIdx`, its name and its project to the three columns
   * of the second row of the template; everything else stays as in the
   * template.
   */
  method GetGcpInstancesCard(instances: seq<Instance>, startIdx: int) returns (card: Card)
    ensures card.schema == Template().schema && card.version == Template().version
    ensures |card.body| == 2
    ensures card.body[0] == HeaderRow()
    ensures |card.body[1].columns| == 3
    ensures card.body[1].columns[0].width == IdxColumnWidth
    ensures card.body[1].columns[1].width == NameColumnWidth
    ensures card.body[1].columns[2].width == ProjectColumnWidth
    ensures HoldsInstances(card.body[1].columns[0].items, card.body[1].columns[1].items, card.body[1].columns[2].items,
                           instances, startIdx)
  {
    var data := Template();
    var idxCol, nameCol, projectCol := data.body[1].columns[0], data.body[1].columns[1], data.body[1].columns[2];
    var idxItems, nameItems, projectItems := FillInstanceColumns(instances, startIdx);
    CellsHoldInstances(instances, startIdx);
    // the data columns of the template are empty, so they end up holding exactly the appended cells
    assert idxCol.items + idxItems == idxItems;
    assert nameCol.items + nameItems == nameItems;
    assert projectCol.items + projectItems == projectItems;
    var row := ColumnSet([idxCol.(items := idxCol.items + idxItems), nameCol.(items := nameCol.items + nameItems),
                          projectCol.(items := projectCol.items + projectItems)]);
    card := data.(body := [data.body[0], row]);
  }
}
