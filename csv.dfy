/**
 * The CSV writer (util/array-to-csv.js). Nested objects are flattened: the header names a leaf
 * by its own key, prefixed only by its immediate parent's key and `_`, and each row lists the
 * leaf values depth-first in key order. The header comes from the first element alone; each
 * element then adds a line of its values joined by commas.
 */
module Csv {
  import opened Common
  import opened Json

  /** The header fields `flatKeys(obj, path)` emits, in order. A Date has no keys and adds nothing. */
  function HeaderNames(fields: seq<Entry>, path: string): seq<string>
    decreases fields
  {
    if fields == [] then []
    else
      var last := fields[|fields| - 1];
      HeaderNames(fields[..|fields| - 1], path)
      + match last.value
        case Obj(inner) => HeaderNames(inner, last.key + "_")
        case Instant(_) => []
        case _ => [path + last.key]
  }

  /** The leaf values `flatValues(obj)` emits, depth-first in key order; none of them is an object. */
  function LeafValues(fields: seq<Entry>): (values: seq<Value>)
    ensures forall i :: 0 <= i < |values| ==> !IsObject(values[i])
    decreases fields
  {
    if fields == [] then []
    else
      var last := fields[|fields| - 1];
      LeafValues(fields[..|fields| - 1])
      + match last.value
        case Obj(inner) => LeafValues(inner)
        case Instant(_) => []
        case v => [v]
  }

  /** Each name followed by a comma, as `header += name + ","` builds it. */
  function Terminated(names: seq<string>): (s: string)
    ensures names != [] ==> |s| > 0 && s[|s| - 1] == ','
    ensures names == [] ==> s == ""
  {
    if names == [] then "" else Terminated(names[..|names| - 1]) + (names[|names| - 1] + ",")
  }

  lemma TerminatedSnoc(names: seq<string>, name: string)
    ensures Terminated(names + [name]) == Terminated(names) + (name + ",")
  {
    assert (names + [name])[..|names|] == names;
  }

  lemma {:induction false} TerminatedAppend(a: seq<string>, b: seq<string>)
    ensures Terminated(a + b) == Terminated(a) + Terminated(b)
    decreases |b|
  {
    if b != [] {
      assert (a + b)[..|a + b| - 1] == a + b[..|b| - 1];
      TerminatedAppend(a, b[..|b| - 1]);
    } else {
      assert a + b == a;
    }
  }

  /** The fields of one more entry come after those of the entries before it. */
  lemma HeaderNamesStep(fields: seq<Entry>, i: nat, path: string)
    requires i < |fields|
    ensures HeaderNames(fields[..i + 1], path) == HeaderNames(fields[..i], path) +
      match fields[i].value
      case Obj(inner) => HeaderNames(inner, fields[i].key + "_")
      case Instant(_) => []
      case _ => [path + fields[i].key]
  {
    assert fields[..i + 1][..i] == fields[..i];
  }

  /** `flatKeys(obj, path)`: a loop appending to `header`, recursing into nested objects. */
  method FlatKeys(fields: seq<Entry>, path: string) returns (header: string)
    ensures header == Terminated(HeaderNames(fields, path))
    decreases fields
  {
    header := "";
    for i := 0 to |fields|
      invariant header == Terminated(HeaderNames(fields[..i], path))
    {
      var key := fields[i].key;
      var value := fields[i].value;
      HeaderNamesStep(fields, i, path);
      if IsObject(value) {
        var inner := if value.Obj? then value.fields else [];
        var nested := FlatKeys(inner, key + "_");
        TerminatedAppend(HeaderNames(fields[..i], path), HeaderNames(inner, key + "_"));
        header := header + nested;
      } else {
        TerminatedSnoc(HeaderNames(fields[..i], path), path + key);
        header := header + (path + key + ",");
      }
    }
    assert fields[..|fields|] == fields;
  }

  /** `flatValues(obj)`: a loop pushing leaf values, spreading in the values of nested objects. */
  method FlatValues(fields: seq<Entry>) returns (values: seq<Value>)
    ensures values == LeafValues(fields)
    decreases fields
  {
    values := [];
    for i := 0 to |fields|
      invariant values == LeafValues(fields[..i])
    {
      var value := fields[i].value;
      assert fields[..i + 1][..i] == fields[..i];
      if IsObject(value) {
        var nested := FlatValues(if value.Obj? then value.fields else []);
        values := values + nested;
      } else {
        values := values + [value];
      }
    }
    assert fields[..|fields|] == fields;
  }

  /** The header has one field per leaf value: every row lines up with the header built from it. */
  lemma {:induction false} HeaderMatchesValues(fields: seq<Entry>, path: string)
    ensures |HeaderNames(fields, path)| == |LeafValues(fields)|
    decreases fields
  {
    if fields != [] {
      var last := fields[|fields| - 1];
      HeaderMatchesValues(fields[..|fields| - 1], path);
      if last.value.Obj? {
        HeaderMatchesValues(last.value.fields, last.key + "_");
      }
    }
  }

  /** Only the immediate parent's key prefixes a nested leaf: the outer keys are not accumulated. */
  lemma NestedNameKeepsOnlyParent(outer: string, parent: string, leaf: string, v: Value, path: string)
    requires !IsObject(v)
    ensures HeaderNames([Entry(outer, Obj([Entry(parent, Obj([Entry(leaf, v)]))]))], path) == [parent + "_" + leaf]
  {
    var deepest := [Entry(leaf, v)];
    assert HeaderNames(deepest, parent + "_") == [parent + "_" + leaf] by {
      assert deepest[..0] == [];
    }
    var middle := [Entry(parent, Obj(deepest))];
    assert HeaderNames(middle, outer + "_") == [parent + "_" + leaf] by {
      assert middle[..0] == [];
      assert HeaderNames(middle, outer + "_") == HeaderNames([], outer + "_") + HeaderNames(deepest, parent + "_");
    }
    var top := [Entry(outer, Obj(middle))];
    assert top[..0] == [];
    assert HeaderNames(top, path) == HeaderNames([], path) + HeaderNames(middle, outer + "_");
  }

  /** A Date leaf has no keys of its own, so it vanishes from both the header and the row. */
  lemma DateVanishes(key: string, ms: int, path: string)
    ensures HeaderNames([Entry(key, Instant(ms))], path) == []
    ensures LeafValues([Entry(key, Instant(ms))]) == []
  {
    var fields := [Entry(key, Instant(ms))];
    assert fields[..0] == [];
  }

  /** `Array.prototype.join` renders `null` and `undefined` as empty text. */
  function CellText(v: Value): (t: string)
    requires !IsObject(v)
    ensures t == "" <==> v.Undefined? || v.Null? || v == Str("")
  {
    if v.Undefined? || v.Null? then "" else ValueText(v)
  }

  /** `values.join(',')`. */
  function JoinCells(values: seq<Value>): string
    requires forall i :: 0 <= i < |values| ==> !IsObject(values[i])
  {
    if values == [] then ""
    else if |values| == 1 then CellText(values[0])
    else JoinCells(values[..|values| - 1]) + "," + CellText(values[|values| - 1])
  }

  /** The `reduce` over the rows: each adds a line break and its joined values. */
  function Lines(rows: seq<seq<Entry>>): string
  {
    if rows == [] then ""
    else Lines(rows[..|rows| - 1]) + Line(rows[|rows| - 1])
  }

  /** One element's line: a line break, then its values joined by commas. */
  function Line(row: seq<Entry>): string
  {
    "\n" + JoinCells(LeafValues(row))
  }

  lemma {:induction false} LinesAppend(a: seq<seq<Entry>>, b: seq<seq<Entry>>)
    ensures Lines(a + b) == Lines(a) + Lines(b)
    decreases |b|
  {
    if b == [] {
      assert a + b == a;
    } else {
      var init, last := b[..|b| - 1], b[|b| - 1];
      assert (a + b)[..|a + b| - 1] == a + init;
      assert (a + b)[|a + b| - 1] == last;
      LinesAppend(a, init);
      Regroup(Lines(a), Lines(init), Line(last));
    }
  }

  /**
   * Associativity of concatenation, kept apart from `LinesAppend` so that the solver
   * does not unfold `Lines` while regrouping.
   */
  lemma Regroup(x: string, y: string, z: string)
    ensures (x + y) + z == x + (y + z)
  {
  }

  /**
   * The module's export: the header of the first element followed by one line per element.
   * An empty array has no first element and `flatKeys(undefined)` throws: that is `None`.
   */
  function ArrayToCsv(rows: seq<seq<Entry>>): (csv: Option<string>)
    ensures csv.None? <==> rows == []
    ensures csv.Some? ==> Terminated(HeaderNames(rows[0], "")) <= csv.value
  {
    if rows == [] then None else Some(Terminated(HeaderNames(rows[0], "")) + Lines(rows))
  }

  /**
   * Appending an element appends one line and leaves the header alone: the header depends on the
   * first element only, and the rows follow the array's order.
   */
  lemma {:induction false} AppendingRowAddsOneLine(rows: seq<seq<Entry>>, row: seq<Entry>)
    requires rows != []
    ensures ArrayToCsv(rows + [row]).Some?
    ensures ArrayToCsv(rows + [row]).value == ArrayToCsv(rows).value + Line(row)
  {
    var header := Terminated(HeaderNames(rows[0], ""));
    assert (rows + [row])[0] == rows[0];
    assert (rows + [row])[..|rows|] == rows;
    assert Lines(rows + [row]) == Lines(rows) + Line(row);
    assert header + (Lines(rows) + Line(row)) == (header + Lines(rows)) + Line(row);
  }

  /** One element gives its header, a line break and its values. */
  lemma SingleElement(row: seq<Entry>)
    ensures ArrayToCsv([row]) == Some(Terminated(HeaderNames(row, "")) + Line(row))
  {
    assert [row][..0] == [] && [row][0] == row;
    assert Lines([row]) == Line(row) by {
      assert Lines([row]) == Lines([]) + Line(row);
    }
  }

  /** The output is the header followed by each element's line in array order. */
  lemma {:induction false} CsvIsHeaderThenLines(rows: seq<seq<Entry>>, split: nat)
    requires 0 < split <= |rows|
    ensures ArrayToCsv(rows).value == ArrayToCsv(rows[..split]).value + Lines(rows[split..])
  {
    assert rows == rows[..split] + rows[split..];
    LinesAppend(rows[..split], rows[split..]);
  }
}
