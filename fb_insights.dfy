/**
 * Turning ad-insight rows into flat CSV rows: the nested per-action lists
 * of a row become one column per action type, the nested fields themselves
 * are dropped, and the CSV header is every column of every row in sorted
 * order.
 */
module FbInsights {
  import opened Wrappers
  import opened Overlays
  import opened StringOrder

  /** A plain field value of an insight row. */
  datatype Scalar = Text(text: string) | Number(number: int) | Null

  /** One entry of a per-action list; `None` marks a missing `action_type` or `value` key. */
  datatype ActionStat = ActionStat(actionType: Option<string>, value: Option<Scalar>)

  /** A field of an insight row: a plain value or a per-action list. */
  datatype Cell = Plain(scalar: Scalar) | Breakdown(stats: seq<ActionStat>)

  /** An insight row and a flattened row alike: field name to value. */
  type Row = map<string, Cell>

  /** The fields that are never copied into a flattened row. */
  const NestedKeys: set<string> := {
    "actions", "action_values", "cost_per_action_type", "conversions", "conversion_values",
    "video_30_sec_watched_actions", "video_p25_watched_actions", "video_p50_watched_actions",
    "video_p75_watched_actions", "video_p100_watched_actions", "video_avg_time_watched_actions"
  }

  /**
   * The per-action fields that are expanded, in the order they are expanded,
   * each with the prefix of the columns it becomes.
   */
  const Sources: seq<(string, string)> := [
    ("actions", "action_"),
    ("cost_per_action_type", "cpa_"),
    ("video_30_sec_watched_actions", "video_30_sec_watched_actions_"),
    ("video_p25_watched_actions", "video_p25_watched_actions_"),
    ("video_p50_watched_actions", "video_p50_watched_actions_"),
    ("video_p75_watched_actions", "video_p75_watched_actions_"),
    ("video_p100_watched_actions", "video_p100_watched_actions_"),
    ("video_avg_time_watched_actions", "video_avg_time_watched_actions_")
  ]

  /** Python truthiness of a field value. */
  predicate Truthy(c: Cell) {
    match c
    case Plain(Text(s)) => s != []
    case Plain(Number(n)) => n != 0
    case Plain(Null) => false
    case Breakdown(stats) => stats != []
  }

  /** `action.get('action_type', 'unknown')` */
  function TypeOf(a: ActionStat): string {
    if a.actionType.Some? then a.actionType.value else "unknown"
  }

  /** `action.get('value', 0)` */
  function ValueOf(a: ActionStat): Scalar {
    if a.value.Some? then a.value.value else Number(0)
  }

  /** The column writes of one per-action list: `prefix + action_type` gets the action's value. */
  function Pairs(prefix: string, stats: seq<ActionStat>): seq<(string, Cell)> {
    seq(|stats|, i requires 0 <= i < |stats| => (prefix + TypeOf(stats[i]), Plain(ValueOf(stats[i]))))
  }

  /**
   * The writes of one expanded field: none when it is missing or falsy.
   * A truthy plain value cannot be iterated as a list of actions, which
   * makes Python raise.
   */
  function Expansion(row: Row, src: (string, string)): Result<seq<(string, Cell)>, string> {
    if src.0 in row && Truthy(row[src.0]) then
      match row[src.0]
      case Breakdown(stats) => Ok(Pairs(src.1, stats))
      case Plain(_) => Err("field " + src.0 + " is not a list of actions")
    else Ok([])
  }

  /** The writes of the fields `srcs`, in order; the first field that cannot be expanded aborts. */
  function WritesFrom(row: Row, srcs: seq<(string, string)>): Result<seq<(string, Cell)>, string> {
    if srcs == [] then Ok([])
    else
      match WritesFrom(row, srcs[..|srcs| - 1])
      case Err(e) => Err(e)
      case Ok(ws) =>
        match Expansion(row, srcs[|srcs| - 1])
        case Err(e) => Err(e)
        case Ok(more) => Ok(ws + more)
  }

  /** The fields copied unchanged: every field that is not nested. */
  function Copied(row: Row): Row {
    map k | k in row && k !in NestedKeys :: row[k]
  }

  /** The flattened row: the copied fields, then the expansions written over them in order. */
  function FlattenRow(row: Row): Result<Row, string> {
    match WritesFrom(row, Sources)
    case Err(e) => Err(e)
    case Ok(ws) => Ok(Overlay(Copied(row), ws))
  }

  /** `flatten_actions` on a list of rows; a row that cannot be flattened aborts. */
  function Flatten(data: seq<Row>): Result<seq<Row>, string> {
    if data == [] then Ok([])
    else
      match Flatten(data[..|data| - 1])
      case Err(e) => Err(e)
      case Ok(rows) =>
        match FlattenRow(data[|data| - 1])
        case Err(e) => Err(e)
        case Ok(r) => Ok(rows + [r])
  }

  /** Expanding one more field: its writes follow the earlier ones, or its error ends the expansion. */
  lemma WritesFromStep(row: Row, srcs: seq<(string, string)>, n: nat)
    requires n < |srcs| && WritesFrom(row, srcs[..n]).Ok?
    ensures WritesFrom(row, srcs[..n + 1]) ==
      match Expansion(row, srcs[n])
      case Err(e) => Err(e)
      case Ok(more) => Ok(WritesFrom(row, srcs[..n]).value + more)
  {
    assert srcs[..n + 1][..n] == srcs[..n];
  }

  /** Once a prefix of the fields aborts, the whole expansion aborts with the same error. */
  lemma {:induction false} WritesFromAbortPersists(row: Row, srcs: seq<(string, string)>, n: nat)
    requires n <= |srcs| && WritesFrom(row, srcs[..n]).Err?
    ensures WritesFrom(row, srcs) == WritesFrom(row, srcs[..n])
    decreases |srcs| - n
  {
    if n < |srcs| {
      assert srcs[..n + 1][..n] == srcs[..n];
      WritesFromAbortPersists(row, srcs, n + 1);
    } else {
      assert srcs[..n] == srcs;
    }
  }

  /** Once a prefix of the rows aborts, flattening all of them aborts with the same error. */
  lemma {:induction false} FlattenAbortPersists(data: seq<Row>, n: nat)
    requires n <= |data| && Flatten(data[..n]).Err?
    ensures Flatten(data) == Flatten(data[..n])
    decreases |data| - n
  {
    if n < |data| {
      assert data[..n + 1][..n] == data[..n];
      FlattenAbortPersists(data, n + 1);
    } else {
      assert data[..n] == data;
    }
  }

  /** Copy the non-nested fields of `row`, one key at a time. */
  method CopyFields(row: Row) returns (flatRow: Row)
    ensures flatRow == Copied(row)
  {
    flatRow := map[];
    var keys := row.Keys;
    while keys != {}
      invariant keys <= row.Keys
      invariant flatRow == map k | k in row && k !in keys && k !in NestedKeys :: row[k]
      decreases keys
    {
      var key :| key in keys;
      if key !in NestedKeys {
        flatRow := flatRow[key := row[key]];
      }
      keys := keys - {key};
    }
  }

  /** Write the columns of one per-action list into `flatRow`, one action at a time. */
  method ExpandList(flatRow: Row, prefix: string, stats: seq<ActionStat>) returns (r: Row)
    ensures r == Overlay(flatRow, Pairs(prefix, stats))
  {
    r := flatRow;
    ghost var ws := Pairs(prefix, stats);
    for j := 0 to |stats|
      invariant r == Overlay(flatRow, ws[..j])
    {
      var action := stats[j];
      var actionType := if action.actionType.Some? then action.actionType.value else "unknown";
      var actionValue := if action.value.Some? then action.value.value else Number(0);
      r := r[prefix + actionType := Plain(actionValue)];
      assert ws[..j + 1][..j] == ws[..j];
    }
    assert ws[..|stats|] == ws;
  }

  /** The body of the loop of `flatten_actions`: build one `flat_row`. */
  method FlattenOne(row: Row) returns (result: Result<Row, string>)
    ensures result == FlattenRow(row)
  {
    var copied := CopyFields(row);
    var flatRow := copied;
    for s := 0 to |Sources|
      invariant WritesFrom(row, Sources[..s]).Ok?
      invariant flatRow == Overlay(copied, WritesFrom(row, Sources[..s]).value)
    {
      var field, prefix := Sources[s].0, Sources[s].1;
      ghost var before := WritesFrom(row, Sources[..s]).value;
      WritesFromStep(row, Sources, s);
      if field in row && Truthy(row[field]) {
        match row[field]
        case Plain(_) =>
          WritesFromAbortPersists(row, Sources, s + 1);
          return Err("field " + field + " is not a list of actions");
        case Breakdown(stats) =>
          flatRow := ExpandList(flatRow, prefix, stats);
          OverlayAppend(copied, before, Pairs(prefix, stats));
      } else {
        assert before + [] == before;
      }
    }
    assert Sources[..|Sources|] == Sources;
    return Ok(flatRow);
  }

  /** `flatten_actions`: one flattened row per insight row, in order. */
  method FlattenActions(data: seq<Row>) returns (result: Result<seq<Row>, string>)
    ensures result == Flatten(data)
  {
    var flattenedData: seq<Row> := [];
    for i := 0 to |data|
      invariant Flatten(data[..i]) == Ok(flattenedData)
    {
      assert data[..i + 1][..i] == data[..i];
      var flatRow := FlattenOne(data[i]);
      match flatRow
      case Err(e) =>
        FlattenAbortPersists(data, i + 1);
        return Err(e);
      case Ok(r) =>
        flattenedData := flattenedData + [r];
    }
    assert data[..|data|] == data;
    return Ok(flattenedData);
  }

  // ---------------------------------------------------------------------------
  // What a flattened row holds

  /** One flattened row per input row, in order; flattening aborts exactly when some row cannot be flattened. */
  lemma {:induction false} FlattenRowByRow(data: seq<Row>)
    ensures Flatten(data).Ok? <==> forall i :: 0 <= i < |data| ==> FlattenRow(data[i]).Ok?
    ensures Flatten(data).Ok? ==>
      |Flatten(data).value| == |data|
      && forall i :: 0 <= i < |data| ==> Flatten(data).value[i] == FlattenRow(data[i]).value
    decreases |data|
  {
    if data != [] {
      var init := data[..|data| - 1];
      FlattenRowByRow(init);
      assert forall i :: 0 <= i < |init| ==> init[i] == data[i];
    }
  }

  /** `w` is the column write of an entry of the per-action list under `src`. */
  predicate ColumnOf(row: Row, src: (string, string), w: (string, Cell)) {
    src.0 in row && row[src.0].Breakdown?
    && exists j :: 0 <= j < |row[src.0].stats| && w == (src.1 + TypeOf(row[src.0].stats[j]), Plain(ValueOf(row[src.0].stats[j])))
  }

  /** Every write of an expansion is the column of an entry of one of the expanded lists. */
  lemma {:induction false} WritesAreColumns(row: Row, srcs: seq<(string, string)>)
    requires WritesFrom(row, srcs).Ok?
    ensures forall i :: 0 <= i < |WritesFrom(row, srcs).value| ==>
      exists s :: 0 <= s < |srcs| && ColumnOf(row, srcs[s], WritesFrom(row, srcs).value[i])
    decreases |srcs|
  {
    if srcs != [] {
      var init, last := srcs[..|srcs| - 1], srcs[|srcs| - 1];
      WritesAreColumns(row, init);
      var ws, more := WritesFrom(row, init).value, Expansion(row, last).value;
      forall i | 0 <= i < |ws + more|
        ensures exists s :: 0 <= s < |srcs| && ColumnOf(row, srcs[s], (ws + more)[i])
      {
        if i < |ws| {
          var s :| 0 <= s < |init| && ColumnOf(row, init[s], ws[i]);
          assert srcs[s] == init[s];
        } else {
          var j := i - |ws|;
          assert ColumnOf(row, srcs[|srcs| - 1], more[j]);
        }
      }
    }
  }

  /** Expanding `a + b` is expanding `a`, then `b`. */
  lemma {:induction false} WritesFromAppend(row: Row, a: seq<(string, string)>, b: seq<(string, string)>)
    requires WritesFrom(row, a + b).Ok?
    ensures WritesFrom(row, a).Ok? && WritesFrom(row, b).Ok?
    ensures WritesFrom(row, a + b).value == WritesFrom(row, a).value + WritesFrom(row, b).value
    decreases |b|
  {
    if b == [] {
      assert a + b == a;
    } else {
      var init, last := b[..|b| - 1], b[|b| - 1];
      assert (a + b)[..|a + b| - 1] == a + init;
      assert (a + b)[|a + b| - 1] == last;
      assert WritesFrom(row, a + init).Ok? && Expansion(row, last).Ok?;
      WritesFromAppend(row, a, init);
      var more := Expansion(row, last).value;
      assert WritesFrom(row, b) == Ok(WritesFrom(row, init).value + more);
      assert WritesFrom(row, a + b).value == WritesFrom(row, a + init).value + more;
    }
  }

  /** The column prefixes are such that a column name starts with at most one of them. */
  lemma PrefixUnique(a: int, b: int, k: string)
    requires 0 <= a < |Sources| && 0 <= b < |Sources|
    requires Sources[a].1 <= k && Sources[b].1 <= k
    ensures a == b
  {
    var pa, pb := Sources[a].1, Sources[b].1;
    assert k[0] == pa[0] && k[0] == pb[0];
    if 2 <= a && 2 <= b {
      assert k[6] == pa[6] && k[6] == pb[6];
      assert k[7] == pa[7] && k[7] == pb[7];
    }
  }

  /** Columns that come from an expansion start with one of the column prefixes. */
  predicate HasColumnPrefix(k: string) {
    exists s :: 0 <= s < |Sources| && Sources[s].1 <= k
  }

  /**
   * A field that is not nested is copied with its value unchanged, unless an
   * expansion writes a column of the same name; every column is such a
   * field or an expanded column, and expanded columns start with a column
   * prefix.
   */
  lemma CopiedFieldsKept(row: Row)
    requires FlattenRow(row).Ok?
    ensures forall k :: k in row && k !in NestedKeys ==>
      k in FlattenRow(row).value
      && (k in WrittenKeys(WritesFrom(row, Sources).value) || FlattenRow(row).value[k] == row[k])
    ensures forall k :: k in FlattenRow(row).value ==>
      (k in row && k !in NestedKeys) || k in WrittenKeys(WritesFrom(row, Sources).value)
    ensures forall k :: k in WrittenKeys(WritesFrom(row, Sources).value) ==> HasColumnPrefix(k)
  {
    var ws := WritesFrom(row, Sources).value;
    OverlayFacts(Copied(row), ws);
    forall k | k in WrittenKeys(ws) ensures HasColumnPrefix(k) {
      var s, j := ColumnSource(row, k);
      assert Sources[s].1 <= k;
    }
  }

  /** Entry `j` is the last of its list with its action type. */
  predicate LastOfType(stats: seq<ActionStat>, j: int) {
    0 <= j < |stats| && forall j' :: j < j' < |stats| ==> TypeOf(stats[j']) != TypeOf(stats[j])
  }

  lemma SamePrefix(p: string, t1: string, t2: string)
    requires p + t1 == p + t2
    ensures t1 == t2
  {
    assert t1 == (p + t1)[|p|..];
    assert t2 == (p + t2)[|p|..];
  }

  /** The expansion of one present list is its column writes (none for an empty list). */
  lemma ExpansionOfList(row: Row, src: (string, string))
    requires src.0 in row && row[src.0].Breakdown?
    ensures Expansion(row, src) == Ok(Pairs(src.1, row[src.0].stats))
  {
    if row[src.0].stats == [] {
      assert Pairs(src.1, row[src.0].stats) == [];
    }
  }

  /** The writes of a row split around the list of field `s`. */
  lemma SplitWrites(row: Row, s: int)
    requires 0 <= s < |Sources| && Sources[s].0 in row && row[Sources[s].0].Breakdown?
    requires WritesFrom(row, Sources).Ok?
    ensures WritesFrom(row, Sources[..s]).Ok? && WritesFrom(row, Sources[s + 1..]).Ok?
    ensures WritesFrom(row, Sources).value ==
      WritesFrom(row, Sources[..s]).value + Pairs(Sources[s].1, row[Sources[s].0].stats)
      + WritesFrom(row, Sources[s + 1..]).value
  {
    var before, here, after := Sources[..s], [Sources[s]], Sources[s + 1..];
    assert Sources == before + here + after;
    WritesFromAppend(row, before + here, after);
    WritesFromAppend(row, before, here);
    assert here[..0] == [];
    ExpansionOfList(row, Sources[s]);
  }

  /** Entry `j` being the last of its type makes its column write the last one of the list. */
  lemma LastOfTypeIsLastWrite(prefix: string, stats: seq<ActionStat>, j: int)
    requires LastOfType(stats, j)
    ensures IsLastWrite(Pairs(prefix, stats), j)
  {
    var p := Pairs(prefix, stats);
    forall j' | j < j' < |p| ensures p[j'].0 != p[j].0 {
      if p[j'].0 == p[j].0 { SamePrefix(prefix, TypeOf(stats[j']), TypeOf(stats[j])); }
    }
  }

  /** A column with the prefix of field `s` is never written by the fields expanded after it. */
  lemma LaterFieldsMissColumn(row: Row, s: int, column: string)
    requires 0 <= s < |Sources| && Sources[s].1 <= column
    requires WritesFrom(row, Sources[s + 1..]).Ok?
    ensures column !in WrittenKeys(WritesFrom(row, Sources[s + 1..]).value)
  {
    var after := Sources[s + 1..];
    var b := WritesFrom(row, after).value;
    WritesAreColumns(row, after);
    forall i | 0 <= i < |b| ensures b[i].0 != column {
      var s' :| 0 <= s' < |after| && ColumnOf(row, after[s'], b[i]);
      assert after[s'] == Sources[s + 1 + s'];
      if b[i].0 == column { PrefixUnique(s, s + 1 + s', column); }
    }
  }

  /**
   * Each entry of an expanded list becomes the column `prefix + action_type`
   * holding its value; of several entries with the same type, the last wins.
   */
  lemma ColumnValue(row: Row, s: int, j: int)
    requires 0 <= s < |Sources| && Sources[s].0 in row && row[Sources[s].0].Breakdown?
    requires LastOfType(row[Sources[s].0].stats, j)
    requires FlattenRow(row).Ok?
    ensures Sources[s].1 + TypeOf(row[Sources[s].0].stats[j]) in FlattenRow(row).value
    ensures FlattenRow(row).value[Sources[s].1 + TypeOf(row[Sources[s].0].stats[j])]
      == Plain(ValueOf(row[Sources[s].0].stats[j]))
  {
    var stats := row[Sources[s].0].stats;
    var column := Sources[s].1 + TypeOf(stats[j]);
    SplitWrites(row, s);
    var a, p, b := WritesFrom(row, Sources[..s]).value, Pairs(Sources[s].1, stats), WritesFrom(row, Sources[s + 1..]).value;
    OverlayAppend(Copied(row), a + p, b);
    OverlayAppend(Copied(row), a, p);
    var mid := Overlay(Overlay(Copied(row), a), p);
    LastOfTypeIsLastWrite(Sources[s].1, stats, j);
    OverlayFacts(Overlay(Copied(row), a), p);
    assert column in mid && mid[column] == Plain(ValueOf(stats[j]));
    LaterFieldsMissColumn(row, s, column);
    OverlayFacts(mid, b);
  }

  /** A column name is a nested field name exactly when it is "action_" + "values". */
  lemma NestedColumn(s: int, t: string)
    requires 0 <= s < |Sources|
    ensures Sources[s].1 + t in NestedKeys <==> s == 0 && t == "values"
  {
    var p := Sources[s].1;
    var k := p + t;
    assert forall i :: 0 <= i < |p| ==> k[i] == p[i];
    if s == 0 {
      assert k[6] == '_' && k[7..] == t;
      assert "action_values"[7..] == "values";
      if t == "values" {
        assert k == "action_values";
      }
    } else if s == 1 {
      assert k[1] == 'p';
    } else {
      assert k[6] == p[6] && k[7] == p[7];
    }
  }

  /** The list entry an expanded column comes from. */
  lemma ColumnSource(row: Row, k: string) returns (s: int, j: int)
    requires WritesFrom(row, Sources).Ok? && k in WrittenKeys(WritesFrom(row, Sources).value)
    ensures 0 <= s < |Sources| && Sources[s].0 in row && row[Sources[s].0].Breakdown?
    ensures 0 <= j < |row[Sources[s].0].stats| && k == Sources[s].1 + TypeOf(row[Sources[s].0].stats[j])
  {
    var ws := WritesFrom(row, Sources).value;
    WritesAreColumns(row, Sources);
    var i :| 0 <= i < |ws| && ws[i].0 == k;
    s :| 0 <= s < |Sources| && ColumnOf(row, Sources[s], ws[i]);
    var stats := row[Sources[s].0].stats;
    j :| 0 <= j < |stats| && ws[i] == (Sources[s].1 + TypeOf(stats[j]), Plain(ValueOf(stats[j])));
  }

  /**
   * Of the nested field names only "action_values" can occur in a flattened
   * row, and only as the column of an `actions` entry of type "values".
   */
  lemma NestedKeyInOutput(row: Row, k: string)
    requires FlattenRow(row).Ok? && k in FlattenRow(row).value && k in NestedKeys
    ensures k == "action_values" && "actions" in row && row["actions"].Breakdown?
    ensures exists j :: 0 <= j < |row["actions"].stats| && TypeOf(row["actions"].stats[j]) == "values"
  {
    var ws := WritesFrom(row, Sources).value;
    OverlayFacts(Copied(row), ws);
    assert k !in Copied(row);
    assert k in WrittenKeys(ws);
    var s, j := ColumnSource(row, k);
    NestedColumn(s, TypeOf(row[Sources[s].0].stats[j]));
    assert s == 0 && Sources[0].0 == "actions";
  }

  lemma NestedKeysInOutput(row: Row)
    requires FlattenRow(row).Ok?
    ensures forall k :: k in FlattenRow(row).value && k in NestedKeys ==>
      k == "action_values" && "actions" in row && row["actions"].Breakdown?
      && exists j :: 0 <= j < |row["actions"].stats| && TypeOf(row["actions"].stats[j]) == "values"
  {
    forall k | k in FlattenRow(row).value && k in NestedKeys
      ensures k == "action_values" && "actions" in row && row["actions"].Breakdown?
        && exists j :: 0 <= j < |row["actions"].stats| && TypeOf(row["actions"].stats[j]) == "values"
    {
      NestedKeyInOutput(row, k);
    }
  }

  /** A row whose only action has type "values" gets the column "action_values", a nested field name. */
  lemma ActionValuesColumn()
    ensures var row := map["actions" := Breakdown([ActionStat(Some("values"), Some(Number(3)))])];
      FlattenRow(row).Ok? && "action_values" in NestedKeys
      && "action_values" in FlattenRow(row).value && FlattenRow(row).value["action_values"] == Plain(Number(3))
  {
    var row := map["actions" := Breakdown([ActionStat(Some("values"), Some(Number(3)))])];
    AllExpandable(row, Sources);
    assert LastOfType(row["actions"].stats, 0);
    ColumnValue(row, 0, 0);
    assert Sources[0].1 + TypeOf(row["actions"].stats[0]) == "action_values";
  }

  /** When every expanded field present is a list, the expansion does not abort. */
  lemma {:induction false} AllExpandable(row: Row, srcs: seq<(string, string)>)
    requires forall s :: 0 <= s < |srcs| && srcs[s].0 in row ==> row[srcs[s].0].Breakdown?
    ensures WritesFrom(row, srcs).Ok?
    decreases |srcs|
  {
    if srcs != [] {
      var init := srcs[..|srcs| - 1];
      assert forall s :: 0 <= s < |init| ==> init[s] == srcs[s];
      AllExpandable(row, init);
    }
  }

  /** The fields that are dropped and never expanded. */
  const DroppedKeys: set<string> := {"action_values", "conversions", "conversion_values"}

  /** Nothing a dropped field holds can change the flattened row. */
  lemma DroppedFieldsIgnored(row: Row, k: string, v: Cell)
    requires k in DroppedKeys
    ensures FlattenRow(row[k := v]) == FlattenRow(row)
  {
    assert Copied(row[k := v]) == Copied(row);
    forall s | 0 <= s < |Sources| ensures Sources[s].0 != k {
    }
    ExpansionIgnores(row, k, v, Sources);
  }

  lemma {:induction false} ExpansionIgnores(row: Row, k: string, v: Cell, srcs: seq<(string, string)>)
    requires forall s :: 0 <= s < |srcs| ==> srcs[s].0 != k
    ensures WritesFrom(row[k := v], srcs) == WritesFrom(row, srcs)
    decreases |srcs|
  {
    if srcs != [] {
      var init := srcs[..|srcs| - 1];
      assert forall s :: 0 <= s < |init| ==> init[s] == srcs[s];
      ExpansionIgnores(row, k, v, init);
      assert Expansion(row[k := v], srcs[|srcs| - 1]) == Expansion(row, srcs[|srcs| - 1]);
    }
  }

  // ---------------------------------------------------------------------------
  // The CSV header

  /** Every column of every row. */
  function AllKeys(data: seq<Row>): set<string> {
    if data == [] then {} else AllKeys(data[..|data| - 1]) + data[|data| - 1].Keys
  }

  /** The header of `save_to_csv`: `None` for no rows, else the sorted union of the rows' columns. */
  method CsvHeader(data: seq<Row>) returns (header: Option<seq<string>>)
    ensures header.None? <==> data == []
    ensures header.Some? ==> StrictlySorted(header.value) && Elements(header.value) == AllKeys(data)
  {
    if data == [] {
      return None;
    }
    var allKeys: set<string> := {};
    for i := 0 to |data|
      invariant allKeys == AllKeys(data[..i])
    {
      assert data[..i + 1][..i] == data[..i];
      allKeys := allKeys + data[i].Keys;
    }
    assert data[..|data|] == data;
    // sorted(list(all_keys)), by repeatedly taking the least remaining key
    var fieldnames: seq<string> := [];
    var remaining := allKeys;
    while remaining != {}
      invariant remaining <= allKeys
      invariant Elements(fieldnames) + remaining == allKeys
      invariant StrictlySorted(fieldnames)
      invariant forall i, y :: 0 <= i < |fieldnames| && y in remaining ==> LexLt(fieldnames[i], y)
      decreases remaining
    {
      LeastExists(remaining);
      var m :| IsLeast(m, remaining);
      forall y | y in remaining - {m} ensures LexLt(m, y) {
      }
      fieldnames := fieldnames + [m];
      remaining := remaining - {m};
    }
    return Some(fieldnames);
  }
}
