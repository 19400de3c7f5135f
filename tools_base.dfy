/**
 * External-tool nodes (`dify_nodes/tools/base.py`): a tool node is a JSON template whose id,
 * title, description and positions are overwritten from the tool configuration, and onto
 * which the tool's own parameters are deep-merged.
 */
module ToolsBase {
  import opened Wrappers
  import opened Json
  import opened NodeBase

  /** `ToolConfig`: the node id, title, position, description and the overlay to merge in. */
  datatype ToolConfig = ToolConfig(title: string, x: int, y: int, desc: string, id: string,
                                   extraParams: map<string, Json>)

  /** `get_tool_output_references`: `#{#<id>.text#}`, `#{#<id>.files#}` and `#{#<id>.json#}`. */
  function ToolOutputReferences(nodeId: string): (r: seq<string>)
    ensures |r| == 3
    ensures r[0] == "#{#" + nodeId + ".text#}" && r[1] == "#{#" + nodeId + ".files#}"
    ensures r[2] == "#{#" + nodeId + ".json#}"
  {
    ["#{#" + nodeId + ".text#}", "#{#" + nodeId + ".files#}", "#{#" + nodeId + ".json#}"]
  }

  /**
   * These references do not have the `{{#...#}}` shape: `parse_variable` finds nothing in
   * them and gives the whole string back, so they never resolve to a node and a variable.
   */
  lemma ToolReferenceUnparsed(nodeId: string, i: nat)
    requires IsPlainName(nodeId) && i < 3
    ensures ParseVariable(ToolOutputReferences(nodeId)[i]) == [ToolOutputReferences(nodeId)[i]]
    ensures forall a, b :: ToolOutputReferences(nodeId)[i] != Reference(a, b)
  {
    var s := ToolOutputReferences(nodeId)[i];
    var suffix := if i == 0 then ".text#}" else if i == 1 then ".files#}" else ".json#}";
    assert s == "#{#" + nodeId + suffix;
    assert forall m :: 3 <= m < 3 + |nodeId| ==> s[m] == nodeId[m - 3];
    assert forall m :: 3 + |nodeId| <= m < |s| ==> s[m] == suffix[m - 3 - |nodeId|];
    assert forall m :: 0 <= m < |suffix| ==> suffix[m] != '{';
    assert forall m :: 0 <= m < |nodeId| ==> IsSelectorChar(nodeId[m]);
    assert forall m :: 0 <= m < |s| && m != 1 ==> s[m] != '{';
    forall k | 0 <= k < |s|
      ensures !ReferenceAt(s, k)
    {
      if k + 3 <= |s| {
        assert s[k..k + 3][0] == s[k] && s[k..k + 3][1] == s[k + 1];
      }
    }
    ParseVariableNoMatch(s);
    forall a, b
      ensures s != Reference(a, b)
    {
      assert Reference(a, b)[0] == '{';
    }
  }

  // Deep merge.

  /**
   * `_deep_update(target, source)` as a value: every source key is written; where both sides
   * hold a dictionary the two are merged recursively, otherwise the source value wins. Keys
   * only the target has are kept.
   */
  function Merge(target: map<string, Json>, source: map<string, Json>): (r: map<string, Json>)
    ensures r.Keys == target.Keys + source.Keys
    decreases JObj(source), 1
  {
    map k | k in target.Keys + source.Keys :: if k in source then MergedValue(target, source, k) else target[k]
  }

  /** The merged value of one source key. */
  function MergedValue(target: map<string, Json>, source: map<string, Json>, k: string): Json
    requires k in source
    decreases JObj(source), 0
  {
    if k in target && target[k].JObj? && source[k].JObj? then JObj(Merge(target[k].fields, source[k].fields))
    else source[k]
  }

  /**
   * `_deep_update`: the loop over the source's keys, recursing into nested dictionaries. The
   * dictionaries are values here, so the update returns the new target.
   */
  method DeepUpdate(target: map<string, Json>, source: map<string, Json>) returns (r: map<string, Json>)
    ensures r == Merge(target, source)
    decreases JObj(source), 1
  {
    r := target;
    var todo := source.Keys;
    while todo != {}
      invariant MergeProgress(target, source, todo, r)
      decreases todo
    {
      var k :| k in todo;
      if k in r && r[k].JObj? && source[k].JObj? {
        var sub := DeepUpdate(r[k].fields, source[k].fields);
        MergeStep(target, source, todo, r, k, JObj(sub));
        r := r[k := JObj(sub)];
      } else {
        MergeStep(target, source, todo, r, k, source[k]);
        r := r[k := source[k]];
      }
      todo := todo - {k};
    }
    MergeDone(target, source, r);
  }

  /** The loop state of `DeepUpdate`: the keys done so far hold their merged values, the others the target's. */
  ghost predicate MergeProgress(target: map<string, Json>, source: map<string, Json>, todo: set<string>,
                                r: map<string, Json>)
  {
    todo <= source.Keys &&
    r.Keys == target.Keys + (source.Keys - todo) &&
    (forall k :: k in r && k in todo ==> r[k] == target[k]) &&
    (forall k :: k in r && k !in source ==> r[k] == target[k]) &&
    (forall k :: k in source.Keys - todo ==> r[k] == MergedValue(target, source, k))
  }

  /** Writing one more key's merged value keeps the loop state. */
  lemma MergeStep(target: map<string, Json>, source: map<string, Json>, todo: set<string>, r: map<string, Json>,
                  k: string, v: Json)
    requires MergeProgress(target, source, todo, r) && k in todo
    requires v == MergedValue(target, source, k) ||
             (k in r && r[k].JObj? && source[k].JObj? && v == JObj(Merge(r[k].fields, source[k].fields)))
    ensures MergeProgress(target, source, todo - {k}, r[k := v])
  {
  }

  /** With no key left, the loop state is the merge. */
  lemma MergeDone(target: map<string, Json>, source: map<string, Json>, r: map<string, Json>)
    requires MergeProgress(target, source, {}, r)
    ensures r == Merge(target, source)
  {
  }

  /** Keys the source does not mention keep the target's value. */
  lemma MergeUntouched(target: map<string, Json>, source: map<string, Json>, k: string)
    requires k in target && k !in source
    ensures Merge(target, source)[k] == target[k]
  {
  }

  /** A source value that is no dictionary replaces the target's, whatever it was. */
  lemma MergeOverwrites(target: map<string, Json>, source: map<string, Json>, k: string)
    requires k in source && !source[k].JObj?
    ensures Merge(target, source)[k] == source[k]
  {
  }

  /** An empty overlay changes nothing. */
  lemma MergeEmpty(target: map<string, Json>)
    ensures Merge(target, map[]) == target
  {
  }

  /** Merging a dictionary into itself gives it back. */
  lemma {:induction false} MergeSelf(m: map<string, Json>)
    ensures Merge(m, m) == m
    decreases JObj(m)
  {
    forall k | k in m
      ensures Merge(m, m)[k] == m[k]
    {
      if m[k].JObj? {
        MergeSelf(m[k].fields);
      }
    }
  }

  /** Merging the same overlay twice gives the same result as merging it once. */
  lemma {:induction false} MergeIdempotent(target: map<string, Json>, source: map<string, Json>)
    ensures Merge(Merge(target, source), source) == Merge(target, source)
    decreases JObj(source)
  {
    var once := Merge(target, source);
    forall k | k in once
      ensures Merge(once, source)[k] == once[k]
    {
      if k in source {
        assert once[k] == MergedValue(target, source, k);
        assert Merge(once, source)[k] == MergedValue(once, source, k);
        if source[k].JObj? {
          if k in target && target[k].JObj? {
            MergeIdempotent(target[k].fields, source[k].fields);
          } else {
            MergeSelf(source[k].fields);
          }
        }
      }
    }
  }

  /** After the merge every source entry is there: nested dictionaries merged, other values as given. */
  predicate Covers(r: map<string, Json>, source: map<string, Json>)
    decreases JObj(source)
  {
    forall k :: k in source ==>
      k in r && (if source[k].JObj? then r[k].JObj? && Covers(r[k].fields, source[k].fields) else r[k] == source[k])
  }

  lemma {:induction false} CoversSelf(m: map<string, Json>)
    ensures Covers(m, m)
    decreases JObj(m)
  {
    forall k | k in m && m[k].JObj?
      ensures Covers(m[k].fields, m[k].fields)
    {
      CoversSelf(m[k].fields);
    }
  }

  lemma {:induction false} MergeCovers(target: map<string, Json>, source: map<string, Json>)
    ensures Covers(Merge(target, source), source)
    decreases JObj(source)
  {
    var r := Merge(target, source);
    forall k | k in source
      ensures k in r && (if source[k].JObj? then r[k].JObj? && Covers(r[k].fields, source[k].fields)
                         else r[k] == source[k])
    {
      assert r[k] == MergedValue(target, source, k);
      if source[k].JObj? {
        if k in target && target[k].JObj? {
          MergeCovers(target[k].fields, source[k].fields);
        } else {
          CoversSelf(source[k].fields);
        }
      }
    }
  }

  // Filling a template.

  /** A template `update_template_fields` can write into: `data`, `position` and `positionAbsolute` are dictionaries. */
  predicate TemplateShaped(template: Json)
  {
    template.JObj? &&
    "data" in template.fields && template.fields["data"].JObj? &&
    "position" in template.fields && template.fields["position"].JObj? &&
    "positionAbsolute" in template.fields && template.fields["positionAbsolute"].JObj?
  }

  /** A point dictionary with `x` and `y` overwritten. */
  function SetXY(p: Json, x: int, y: int): Json
    requires p.JObj?
  {
    JObj(p.fields["x" := JInt(x)]["y" := JInt(y)])
  }

  /** The template with the id, title, description and both positions taken from the configuration. */
  function WithFixedFields(template: Json, c: ToolConfig): (r: map<string, Json>)
    requires TemplateShaped(template)
    ensures r.Keys == template.fields.Keys + {"id"}
  {
    var t := template.fields;
    t["id" := JStr(c.id)]
     ["data" := JObj(t["data"].fields["title" := JStr(c.title)]["desc" := JStr(c.desc)])]
     ["position" := SetXY(t["position"], c.x, c.y)]
     ["positionAbsolute" := SetXY(t["positionAbsolute"], c.x, c.y)]
  }

  /** The configured node: the fixed fields, then the overlay when there is one; a mis-shaped template raises. */
  function Configured(template: Json, c: ToolConfig): (r: Result<Json>)
    ensures r.Success? <==> TemplateShaped(template)
  {
    if !TemplateShaped(template) then Failure("TypeError: template is not a node dictionary")
    else if c.extraParams == map[] then Success(JObj(WithFixedFields(template, c)))
    else Success(JObj(Merge(WithFixedFields(template, c), c.extraParams)))
  }

  /** `update_template_fields`: seven writes into the template, then the merge of a non-empty overlay. */
  method UpdateTemplateFields(template: Json, c: ToolConfig) returns (r: Result<Json>)
    ensures r == Configured(template, c)
  {
    if !TemplateShaped(template) {
      return Failure("TypeError: template is not a node dictionary");
    }
    var t := template.fields;
    t := t["id" := JStr(c.id)];
    var data := t["data"].fields;
    data := data["title" := JStr(c.title)];
    data := data["desc" := JStr(c.desc)];
    t := t["data" := JObj(data)];
    var position := t["position"].fields;
    position := position["x" := JInt(c.x)];
    position := position["y" := JInt(c.y)];
    t := t["position" := JObj(position)];
    var absolute := t["positionAbsolute"].fields;
    absolute := absolute["x" := JInt(c.x)];
    absolute := absolute["y" := JInt(c.y)];
    t := t["positionAbsolute" := JObj(absolute)];
    assert t == WithFixedFields(template, c);
    if c.extraParams != map[] {
      t := DeepUpdate(t, c.extraParams);
    }
    r := Success(JObj(t));
  }

  /**
   * `generate_config`: the loaded template (`None` when the template file does not exist)
   * filled in from the configuration.
   */
  function GenerateConfig(template: Option<Json>, templatePath: string, c: ToolConfig): (r: Result<Json>)
    ensures template.None? ==> r == Failure("工具模板文件不存在: " + templatePath)
    ensures template.Some? ==> r == Configured(template.value, c)
  {
    match template
    case None => Failure("工具模板文件不存在: " + templatePath)
    case Some(t) => Configured(t, c)
  }

  /** An overlay that only adds tool parameters under `data`, as the three tools' overlays do. */
  predicate KeepsFixedFields(extra: map<string, Json>)
  {
    extra.Keys <= {"data"} &&
    ("data" in extra ==> extra["data"].JObj? && "title" !in extra["data"].fields && "desc" !in extra["data"].fields)
  }

  /**
   * When the overlay leaves the fixed fields alone, the configured node has the configured
   * id, title, description and position.
   */
  lemma ConfiguredReadBack(template: Json, c: ToolConfig)
    requires TemplateShaped(template) && KeepsFixedFields(c.extraParams)
    ensures var r := Configured(template, c).value;
      Get(r, "id") == Some(JStr(c.id)) &&
      DataField(r, "title") == Some(JStr(c.title)) && DataField(r, "desc") == Some(JStr(c.desc)) &&
      Get(r, "position").Some? && Get(Get(r, "position").value, "x") == Some(JInt(c.x)) &&
      Get(Get(r, "position").value, "y") == Some(JInt(c.y))
  {
    var fixed := WithFixedFields(template, c);
    if c.extraParams != map[] {
      var m := Merge(fixed, c.extraParams);
      MergeUntouched(fixed, c.extraParams, "id");
      MergeUntouched(fixed, c.extraParams, "position");
      if "data" in c.extraParams {
        MergeUntouched(fixed["data"].fields, c.extraParams["data"].fields, "title");
        MergeUntouched(fixed["data"].fields, c.extraParams["data"].fields, "desc");
      } else {
        MergeUntouched(fixed, c.extraParams, "data");
      }
    }
  }

  /** Without an overlay, every field other than the four written ones is the template's. */
  lemma ConfiguredWithoutOverlay(template: Json, c: ToolConfig, k: string)
    requires TemplateShaped(template) && c.extraParams == map[]
    requires k in template.fields && k !in {"id", "data", "position", "positionAbsolute"}
    ensures Get(Configured(template, c).value, k) == Some(template.fields[k])
  {
  }

  /** Every value the overlay sets is found in the configured node, at every depth. */
  lemma ConfiguredCoversOverlay(template: Json, c: ToolConfig)
    requires TemplateShaped(template)
    ensures Covers(Configured(template, c).value.fields, c.extraParams)
  {
    if c.extraParams != map[] {
      MergeCovers(WithFixedFields(template, c), c.extraParams);
    }
  }
}
