/**
 * Deep merge of a saved payload into the state (`_mergeInto` of state.js).
 *
 * For every own key of the source: a plain-object value is merged recursively into the
 * target's value at that key, which is first replaced by `{}` unless it already is a plain
 * object; any other value (primitive, `null`, array) overwrites the target's value wholesale.
 * Keys of the target that the source does not name are left alone. A source that is not an
 * object leaves the target unchanged; a source that is an array contributes its indices
 * "0", "1", ... as keys, as `Object.keys` does.
 */
module DeepMerge {

  import opened Options
  import opened JsonValues

  /** The decimal digit `d` as a character. */
  function DigitChar(d: nat): (c: char)
    requires d < 10
    ensures '0' <= c <= '9' && c as int - '0' as int == d
  {
    ('0' as int + d) as char
  }

  /** The key `Object.keys` reports for index `i` of an array: its decimal numeral, without leading zeros. */
  function IndexKey(i: nat): (s: string)
    ensures 1 <= |s|
    ensures i < 10 <==> |s| == 1
    ensures s[|s| - 1] == DigitChar(i % 10)
    ensures forall c | c in s :: '0' <= c <= '9'
    ensures |s| > 1 ==> s[0] != '0'
  {
    if i < 10 then [DigitChar(i)] else IndexKey(i / 10) + [DigitChar(i % 10)]
  }

  /** The number a string of decimal digits denotes. */
  function NumeralValue(s: string): nat
    requires forall c | c in s :: '0' <= c <= '9'
  {
    if s == [] then 0
    else
      var prefix, last := s[..|s| - 1], s[|s| - 1];
      assert last in s && forall c | c in prefix :: c in s;
      10 * NumeralValue(prefix) + (last as int - '0' as int)
  }

  /** Read as a decimal numeral, the key of index `i` denotes `i`. */
  lemma {:induction false} IndexKeyDenotesIndex(i: nat)
    ensures NumeralValue(IndexKey(i)) == i
    decreases i
  {
    var s := IndexKey(i);
    if i >= 10 {
      assert s[..|s| - 1] == IndexKey(i / 10);
      IndexKeyDenotesIndex(i / 10);
    } else {
      assert s[..|s| - 1] == [];
    }
  }

  /** Distinct indices have distinct keys. */
  lemma {:induction false} IndexKeyInjective(i: nat, j: nat)
    requires IndexKey(i) == IndexKey(j)
    ensures i == j
    decreases i
  {
    if i >= 10 && j >= 10 {
      var si, sj := IndexKey(i), IndexKey(j);
      assert IndexKey(i / 10) == si[..|si| - 1];
      assert IndexKey(j / 10) == sj[..|sj| - 1];
      IndexKeyInjective(i / 10, j / 10);
    }
  }

  /** An array seen as an object: index keys mapped to the elements. */
  function IndexFields(items: seq<Json>): (m: map<string, Json>)
    ensures forall i :: 0 <= i < |items| ==> IndexKey(i) in m && m[IndexKey(i)] == items[i]
    ensures forall k :: k in m ==> m[k] in items
  {
    forall i: nat, j: nat | IndexKey(i) == IndexKey(j) ensures i == j {
      IndexKeyInjective(i, j);
    }
    map i | 0 <= i < |items| :: IndexKey(i) := items[i]
  }

  /**
   * `Object.keys` of an array yields the index keys and nothing else: every key is a decimal
   * numeral naming an index below the length, and it is that index's own key.
   */
  lemma {:induction false} IndexFieldsOnlyIndexKeys(items: seq<Json>)
    ensures forall k | k in IndexFields(items) ::
      (forall c | c in k :: '0' <= c <= '9') && NumeralValue(k) < |items| && k == IndexKey(NumeralValue(k))
  {
    forall k | k in IndexFields(items)
      ensures (forall c | c in k :: '0' <= c <= '9') && NumeralValue(k) < |items| && k == IndexKey(NumeralValue(k))
    {
      var i :| 0 <= i < |items| && k == IndexKey(i);
      IndexKeyDenotesIndex(i);
    }
  }

  /** The key/value pairs that `for (const k of Object.keys(source))` visits; none for a non-object. */
  function SourceFields(source: Json): (m: map<string, Json>)
    ensures source.JObj? ==> m == source.fields
    ensures !source.JObj? && !source.JArr? ==> m == map[]
  {
    match source
    case JObj(fields) => fields
    case JArr(items) => IndexFields(items)
    case _ => map[]
  }

  /** What the merge descends into at a key: the target's value if it is a plain object, else a new `{}`. */
  function ObjectAt(target: map<string, Json>, k: string): map<string, Json>
  {
    if k in target && target[k].JObj? then target[k].fields else map[]
  }

  /** The target's fields after merging the source's fields into them. */
  function MergeFields(target: map<string, Json>, source: map<string, Json>): map<string, Json>
    decreases JObj(source)
  {
    map k | k in target.Keys + source.Keys ::
      if k !in source then target[k]
      else if source[k].JObj? then JObj(MergeFields(ObjectAt(target, k), source[k].fields))
      else source[k]
  }

  /** `_mergeInto(target, source)` on values: the target object's fields afterwards. */
  function Merge(target: map<string, Json>, source: Json): map<string, Json>
  {
    MergeFields(target, SourceFields(source))
  }

  /** The value the merge leaves at key `k` of the target when the source holds `sv` there. */
  function MergedAt(target: map<string, Json>, k: string, sv: Json): Json
  {
    if sv.JObj? then JObj(MergeFields(ObjectAt(target, k), sv.fields)) else sv
  }

  /** Keys the source does not name keep their target value; the merged keys are the union. */
  lemma MergeFieldsFrame(target: map<string, Json>, source: map<string, Json>)
    ensures MergeFields(target, source).Keys == target.Keys + source.Keys
    ensures forall k :: k in source ==> MergeFields(target, source)[k] == MergedAt(target, k, source[k])
    ensures forall k :: k in target && k !in source ==> MergeFields(target, source)[k] == target[k]
  {
  }

  /** Handling one more source key extends the merge by that key alone (one turn of the loop). */
  lemma MergeFieldsStep(target: map<string, Json>, source: map<string, Json>, k: string, sv: Json)
    requires k !in source
    ensures MergeFields(target, source[k := sv]) == MergeFields(target, source)[k := MergedAt(target, k, sv)]
  {
    MergeFieldsFrame(target, source);
    MergeFieldsFrame(target, source[k := sv]);
  }

  /** Before the loop reaches key `k`, the merged fields still hold the target's value there. */
  lemma MergeFieldsOutside(target: map<string, Json>, done: map<string, Json>, k: string)
    requires k !in done
    ensures ObjectAt(MergeFields(target, done), k) == ObjectAt(target, k)
  {
    MergeFieldsFrame(target, done);
  }

  /** An empty source leaves the target as it is. */
  lemma MergeFieldsNothing(target: map<string, Json>)
    ensures MergeFields(target, map[]) == target
  {
    MergeFieldsFrame(target, map[]);
  }

  /** Moving key `k` from the keys still to visit to the visited ones updates the merge at `k` alone. */
  lemma VisitKey(target: map<string, Json>, fields: map<string, Json>, todo: set<string>, k: string)
    requires k in todo && todo <= fields.Keys
    ensures MergeFields(target, fields - (todo - {k}))
         == MergeFields(target, fields - todo)[k := MergedAt(target, k, fields[k])]
  {
    var before, after := (fields - todo)[k := fields[k]], fields - (todo - {k});
    assert before.Keys == after.Keys;
    assert before == after;
    MergeFieldsStep(target, fields - todo, k, fields[k]);
  }

  /**
   * The loop of `_mergeInto`: visits the source's keys one at a time and updates the target
   * at that key, recursing into plain-object values. Returns the target's fields afterwards.
   */
  method MergeInto(target: map<string, Json>, source: Json) returns (merged: map<string, Json>)
    ensures merged == Merge(target, source)
    decreases source
  {
    if !Truthy(source) || !(source.JArr? || source.JObj?) {
      MergeFieldsNothing(target);
      return target;
    }
    var fields := SourceFields(source);
    merged := target;
    var todo := fields.Keys;
    MergeFieldsNothing(target);
    assert fields - todo == map[];
    while todo != {}
      invariant todo <= fields.Keys
      invariant merged == MergeFields(target, fields - todo)
      decreases todo
    {
      var k :| k in todo;
      var sv := fields[k];
      ghost var done := fields - todo;
      if sv.JObj? {
        // a missing, primitive, null or array target value is first replaced by {}
        var base := ObjectAt(merged, k);
        MergeFieldsOutside(target, done, k);
        assert sv in fields.Values;
        var sub := MergeInto(base, sv);
        merged := merged[k := JObj(sub)];
      } else {
        merged := merged[k := sv];
      }
      VisitKey(target, fields, todo, k);
      todo := todo - {k};
    }
    assert fields - todo == fields;
  }

  /** The value reached by following `path` through nested objects; `None` once a step is missing. */
  function LookupIn(j: Json, path: seq<string>): Option<Json>
    decreases |path|
  {
    if path == [] then Some(j)
    else if j.JObj? && path[0] in j.fields then LookupIn(j.fields[path[0]], path[1..])
    else None
  }

  /** Whether merging `source` writes at `path` or at a prefix of it (a non-object value overwrites the whole subtree). */
  predicate Overrides(source: map<string, Json>, path: seq<string>)
    decreases |path|
  {
    && |path| > 0
    && path[0] in source
    && (|path| == 1 || !source[path[0]].JObj? || Overrides(source[path[0]].fields, path[1..]))
  }

  /**
   * Every path the source does not override reads the same before and after the merge: keys
   * the source does not name, including sibling keys inside nested objects, are untouched.
   */
  lemma {:induction false} MergeKeepsUntouched(target: map<string, Json>, source: map<string, Json>, path: seq<string>)
    requires |path| > 0 && !Overrides(source, path)
    ensures LookupIn(JObj(MergeFields(target, source)), path) == LookupIn(JObj(target), path)
    decreases |path|
  {
    MergeFieldsFrame(target, source);
    var k := path[0];
    if k in source {
      var sv := source[k];
      assert |path| > 1 && sv.JObj? && !Overrides(sv.fields, path[1..]);
      MergeKeepsUntouched(ObjectAt(target, k), sv.fields, path[1..]);
    }
  }

  /**
   * Every leaf of the source is in the merged result: a primitive, null or array found at
   * `path` in the source is found there after the merge, and an object there stays an object.
   */
  lemma {:induction false} MergeSourceWins(target: map<string, Json>, source: map<string, Json>, path: seq<string>, v: Json)
    requires |path| > 0 && LookupIn(JObj(source), path) == Some(v)
    ensures var after := LookupIn(JObj(MergeFields(target, source)), path);
      after.Some? && (v.JObj? ==> after.value.JObj?) && (!v.JObj? ==> after.value == v)
    decreases |path|
  {
    MergeFieldsFrame(target, source);
    var k := path[0];
    var sv := source[k];
    if |path| > 1 {
      MergeSourceWins(ObjectAt(target, k), sv.fields, path[1..], v);
    }
  }

  /** The merge invents nothing: every path of the result is a path of the source or of the target. */
  lemma {:induction false} MergeAddsNothing(target: map<string, Json>, source: map<string, Json>, path: seq<string>)
    requires LookupIn(JObj(MergeFields(target, source)), path).Some?
    ensures LookupIn(JObj(source), path).Some? || LookupIn(JObj(target), path).Some?
    decreases |path|
  {
    if |path| > 0 {
      MergeFieldsFrame(target, source);
      var k := path[0];
      if k in source && source[k].JObj? && |path| > 1 {
        MergeAddsNothing(ObjectAt(target, k), source[k].fields, path[1..]);
      }
    }
  }

  /** Merging the same source twice changes nothing the first merge did not. */
  lemma {:induction false} MergeIdempotent(target: map<string, Json>, source: map<string, Json>)
    ensures MergeFields(MergeFields(target, source), source) == MergeFields(target, source)
    decreases JObj(source)
  {
    var once := MergeFields(target, source);
    MergeFieldsFrame(target, source);
    MergeFieldsFrame(once, source);
    forall k | k in source && source[k].JObj?
      ensures MergedAt(once, k, source[k]) == MergedAt(target, k, source[k])
    {
      MergeIdempotent(ObjectAt(target, k), source[k].fields);
    }
  }

  /** Merged into an empty object, a source yields exactly its own fields. */
  lemma {:induction false} MergeIntoEmpty(source: map<string, Json>)
    ensures MergeFields(map[], source) == source
    decreases JObj(source)
  {
    MergeFieldsFrame(map[], source);
    forall k | k in source && source[k].JObj?
      ensures MergedAt(map[], k, source[k]) == source[k]
    {
      MergeIntoEmpty(source[k].fields);
    }
  }

  /**
   * `source` has every key of `target`, nested objects included (where both sides hold an
   * object at a key, the source's object again covers the target's).
   */
  predicate Covers(source: map<string, Json>, target: map<string, Json>)
    decreases JObj(source)
  {
    forall k :: k in target ==>
      && k in source
      && (source[k].JObj? && target[k].JObj? ==> Covers(source[k].fields, target[k].fields))
  }

  /** A source that covers the target replaces it entirely: the merge yields the source. */
  lemma {:induction false} MergeCovering(target: map<string, Json>, source: map<string, Json>)
    requires Covers(source, target)
    ensures MergeFields(target, source) == source
    decreases JObj(source)
  {
    MergeFieldsFrame(target, source);
    forall k | k in source && source[k].JObj?
      ensures MergedAt(target, k, source[k]) == source[k]
    {
      if k in target && target[k].JObj? {
        MergeCovering(target[k].fields, source[k].fields);
      } else {
        MergeIntoEmpty(source[k].fields);
      }
    }
  }

  /**
   * Nested objects merge key by key, arrays are replaced wholesale: `{a:{x:1,y:2}, b:[1,2,3]}`
   * merged with `{a:{x:9}, b:[7]}` gives `{a:{x:9,y:2}, b:[7]}`.
   */
  lemma MergeExample()
    ensures Merge(map["a" := JObj(map["x" := JNum(1), "y" := JNum(2)]), "b" := JArr([JNum(1), JNum(2), JNum(3)])],
                  JObj(map["a" := JObj(map["x" := JNum(9)]), "b" := JArr([JNum(7)])]))
         == map["a" := JObj(map["x" := JNum(9), "y" := JNum(2)]), "b" := JArr([JNum(7)])]
  {
    var a := map["x" := JNum(1), "y" := JNum(2)];
    var target := map["a" := JObj(a), "b" := JArr([JNum(1), JNum(2), JNum(3)])];
    var source := map["a" := JObj(map["x" := JNum(9)]), "b" := JArr([JNum(7)])];
    MergeFieldsFrame(a, map["x" := JNum(9)]);
    assert MergeFields(a, map["x" := JNum(9)]) == map["x" := JNum(9), "y" := JNum(2)];
    MergeFieldsFrame(target, source);
  }

  /** A one-element array is seen as the object `{"0": x}`. */
  lemma IndexFieldsSingle(x: Json)
    ensures IndexFields([x]) == map["0" := x]
  {
    var fields := IndexFields([x]);
    assert IndexKey(0) == "0";
    forall k | k in fields ensures k == "0" {
      var i :| 0 <= i < 1 && k == IndexKey(i);
    }
  }

  /** An array source adds its elements under the keys "0", "1", ...: merging `["x"]` into `{level:3}` gives `{level:3, "0":"x"}`. */
  lemma MergeArraySourceExample()
    ensures Merge(map["level" := JNum(3)], JArr([JStr("x")])) == map["level" := JNum(3), "0" := JStr("x")]
  {
    IndexFieldsSingle(JStr("x"));
    MergeFieldsFrame(map["level" := JNum(3)], map["0" := JStr("x")]);
  }

  /** A source that is not an object (null, false, 0, a string) leaves the target as it is. */
  lemma MergeNonObjectSource(target: map<string, Json>, source: Json)
    requires !source.JObj? && !source.JArr?
    ensures Merge(target, source) == target
  {
    MergeFieldsNothing(target);
  }
}
