/**
 * The record-level work of the pipeline: the id filters and the limit of
 * fetch_api_data (graph.py:263-271), the field projection of process_data
 * (graph.py:290-305) and the row layout written to the sheet
 * (graph.py:470-479). A record is a dict decoded from the API's JSON.
 */
module Records {
  import opened Wrappers
  import opened PyValues

  // ----- Filters -----

  /** The filter keys fetch_api_data applies (graph.py:266); every other key is ignored. */
  const IdFilterKeys: seq<string> := ["userId", "id"]

  /** `item.get(key) == n` */
  predicate MatchesEqual(item: Dict, key: string, n: int)
  {
    PyEqualsInt(Lookup(item, key), n)
  }

  /** `[item for item in data if item.get(key) == n]` */
  function KeepEqual(data: seq<Dict>, key: string, n: int): (kept: seq<Dict>)
    ensures |kept| <= |data|
  {
    if data == [] then []
    else (if MatchesEqual(data[0], key, n) then [data[0]] else []) + KeepEqual(data[1..], key, n)
  }

  /**
   * What one filter entry asks of an item: nothing when its key is not an id
   * key; otherwise that its value converts with int() and the item's value
   * for the key equals the result.
   */
  predicate SatisfiesEntry(item: Dict, e: (string, Json))
  {
    e.0 in IdFilterKeys ==> PyInt(e.1).Success? && MatchesEqual(item, e.0, PyInt(e.1).value)
  }

  predicate SatisfiesAll(item: Dict, filters: seq<(string, Json)>)
  {
    forall j :: 0 <= j < |filters| ==> SatisfiesEntry(item, filters[j])
  }

  /** The reference for the filter loop: the items that satisfy every entry, in their original order. */
  function KeepSatisfying(data: seq<Dict>, filters: seq<(string, Json)>): (kept: seq<Dict>)
    ensures |kept| <= |data|
    ensures forall item :: item in kept <==> item in data && SatisfiesAll(item, filters)
  {
    if data == [] then []
    else
      var rest := KeepSatisfying(data[1..], filters);
      assert forall x :: x in data <==> x == data[0] || x in data[1..];
      (if SatisfiesAll(data[0], filters) then [data[0]] else []) + rest
  }

  /**
   * One pass of the filter loop (graph.py:266-267). The comprehension
   * evaluates int(value) once per item, so on an empty list it is never
   * evaluated and cannot fail.
   */
  function ApplyEntry(data: seq<Dict>, e: (string, Json)): Result<seq<Dict>, string>
  {
    if e.0 !in IdFilterKeys || data == [] then Success(data)
    else
      match PyInt(e.1)
      case Failure(msg) => Failure(msg)
      case Success(n) => Success(KeepEqual(data, e.0, n))
  }

  /** The filter loop over the entries of the filters dict, in order; the first exception ends it. */
  function ApplyFilters(data: seq<Dict>, filters: seq<(string, Json)>): Result<seq<Dict>, string>
  {
    if filters == [] then Success(data)
    else
      match ApplyFilters(data, filters[..|filters| - 1])
      case Failure(msg) => Failure(msg)
      case Success(d) => ApplyEntry(d, filters[|filters| - 1])
  }

  /** An exception raised in a pass propagates to the end of the loop. */
  lemma {:induction false} FailureSticks(data: seq<Dict>, filters: seq<(string, Json)>, i: nat, msg: string)
    requires i <= |filters|
    requires ApplyFilters(data, filters[..i]) == Failure(msg)
    ensures ApplyFilters(data, filters) == Failure(msg)
    decreases |filters| - i
  {
    if i < |filters| {
      assert filters[..i + 1][..i] == filters[..i];
      FailureSticks(data, filters, i + 1, msg);
    } else {
      assert filters[..i] == filters;
    }
  }

  /** `for key, value in filters.items(): if key in ["userId", "id"]: all_data = [...]` */
  method FilterRecords(data: seq<Dict>, filters: seq<(string, Json)>) returns (r: Result<seq<Dict>, string>)
    ensures r == ApplyFilters(data, filters)
  {
    var allData := data;
    var i := 0;
    while i < |filters|
      invariant 0 <= i <= |filters|
      invariant ApplyFilters(data, filters[..i]) == Success(allData)
    {
      var (key, value) := filters[i];
      assert filters[..i + 1][..i] == filters[..i];
      if key in IdFilterKeys && allData != [] {
        var n := PyInt(value);
        if n.Failure? {
          FailureSticks(data, filters, i + 1, n.error);
          return Failure(n.error);
        }
        allData := KeepEqual(allData, key, n.value);
      }
      i := i + 1;
    }
    assert filters[..i] == filters;
    r := Success(allData);
  }

  lemma KeepSatisfyingNoFilters(data: seq<Dict>)
    ensures KeepSatisfying(data, []) == data
  {
  }

  lemma KeepSatisfyingEmpty(data: seq<Dict>, filters: seq<(string, Json)>)
    ensures KeepSatisfying(data, filters) == [] <==> forall item :: item in data ==> !SatisfiesAll(item, filters)
  {
    var kept := KeepSatisfying(data, filters);
    if kept != [] {
      assert kept[0] in kept;
    }
  }

  /** Adding one more id entry to the filters is one more KeepEqual pass over the kept items. */
  lemma {:induction false} KeepOneMore(data: seq<Dict>, front: seq<(string, Json)>, e: (string, Json), n: int)
    requires e.0 in IdFilterKeys && PyInt(e.1) == Success(n)
    ensures KeepEqual(KeepSatisfying(data, front), e.0, n) == KeepSatisfying(data, front + [e])
  {
    if data != [] {
      var rest := KeepSatisfying(data[1..], front);
      KeepOneMore(data[1..], front, e, n);
      SatisfiesAllSnoc(data[0], front, e);
      assert SatisfiesEntry(data[0], e) <==> MatchesEqual(data[0], e.0, n);
      if SatisfiesAll(data[0], front) {
        var kept := [data[0]] + rest;
        assert KeepSatisfying(data, front) == kept;
        assert kept[0] == data[0] && kept[1..] == rest;
      } else {
        assert KeepSatisfying(data, front) == rest;
      }
    }
  }

  lemma SatisfiesAllSnoc(item: Dict, front: seq<(string, Json)>, e: (string, Json))
    ensures SatisfiesAll(item, front + [e]) <==> SatisfiesAll(item, front) && SatisfiesEntry(item, e)
  {
    var all := front + [e];
    assert forall j :: 0 <= j < |front| ==> all[j] == front[j];
    assert all[|front|] == e;
  }

  /** Entries that ask nothing of any item leave the kept list unchanged. */
  lemma {:induction false} KeepIgnoring(data: seq<Dict>, front: seq<(string, Json)>, e: (string, Json))
    requires e.0 !in IdFilterKeys
    ensures KeepSatisfying(data, front + [e]) == KeepSatisfying(data, front)
  {
    if data != [] {
      KeepIgnoring(data[1..], front, e);
      SatisfiesAllSnoc(data[0], front, e);
    }
  }

  /**
   * When the filter loop completes, it keeps exactly the items that satisfy
   * every id entry, in their original order.
   */
  lemma {:induction false} FiltersKeepSatisfying(data: seq<Dict>, filters: seq<(string, Json)>)
    ensures ApplyFilters(data, filters).Success? ==> ApplyFilters(data, filters).value == KeepSatisfying(data, filters)
  {
    if filters == [] {
      KeepSatisfyingNoFilters(data);
    } else if ApplyFilters(data, filters).Success? {
      var front, e := filters[..|filters| - 1], filters[|filters| - 1];
      assert filters == front + [e];
      FiltersKeepSatisfying(data, front);
      var kept := KeepSatisfying(data, front);
      assert ApplyFilters(data, front) == Success(kept);
      if e.0 !in IdFilterKeys {
        KeepIgnoring(data, front, e);
        assert ApplyFilters(data, filters) == Success(kept);
      } else if kept == [] {
        KeepSatisfyingEmpty(data, front);
        forall item | item in data ensures !SatisfiesAll(item, filters) {
          SatisfiesAllSnoc(item, front, e);
        }
        KeepSatisfyingEmpty(data, filters);
        assert ApplyFilters(data, filters) == Success([]);
      } else {
        assert PyInt(e.1).Success?;
        KeepOneMore(data, front, e, PyInt(e.1).value);
        assert ApplyFilters(data, filters) == Success(KeepEqual(kept, e.0, PyInt(e.1).value));
      }
    }
  }

  /**
   * The loop raises at entry j: an id entry whose value int() rejects, met
   * while the entries before it still keep some items.
   */
  predicate FailsAt(data: seq<Dict>, filters: seq<(string, Json)>, j: int)
  {
    && 0 <= j < |filters| && filters[j].0 in IdFilterKeys && PyInt(filters[j].1).Failure?
    && KeepSatisfying(data, filters[..j]) != []
  }

  /** The filter loop raises exactly when it meets such an entry. */
  lemma {:induction false} FiltersFailWhen(data: seq<Dict>, filters: seq<(string, Json)>)
    ensures ApplyFilters(data, filters).Failure? <==> exists j :: FailsAt(data, filters, j)
  {
    if filters != [] {
      var last := |filters| - 1;
      var front, e := filters[..last], filters[last];
      FiltersFailWhen(data, front);
      FiltersKeepSatisfying(data, front);
      forall j | 0 <= j < last ensures FailsAt(data, front, j) <==> FailsAt(data, filters, j) {
        assert filters[j] == front[j] && filters[..j] == front[..j];
      }
      if ApplyFilters(data, front).Failure? {
        var j :| FailsAt(data, front, j);
        assert FailsAt(data, filters, j);
      } else {
        assert !exists j :: FailsAt(data, front, j);
        assert FailsAt(data, filters, last) <==> ApplyFilters(data, filters).Failure?;
        assert forall j :: FailsAt(data, filters, j) ==> j == last || FailsAt(data, front, j);
      }
    }
  }

  // ----- Limit -----

  /** `data[:n]` for an int n: the first n items, or all but the last -n when n is negative. */
  function Truncate(data: seq<Dict>, n: int): (r: seq<Dict>)
    ensures n >= 0 ==> |r| == if n < |data| then n else |data|
    ensures n < 0 ==> |r| == if |data| + n > 0 then |data| + n else 0
    ensures |r| <= |data| && r == data[..|r|]
  {
    if n >= 0 then (if n < |data| then data[..n] else data)
    else if |data| + n > 0 then data[..|data| + n]
    else []
  }

  /** `data[:v]` for a slice bound v: None takes everything; int() values (a bool among them) truncate. */
  function SliceTo(data: seq<Dict>, v: Json): Result<seq<Dict>, string>
  {
    if v.JNull? then Success(data)
    else if IsIntLike(v) then Success(Truncate(data, IntValue(v)))
    else Failure("slice indices must be integers or None or have an __index__ method")
  }

  // ----- Projection -----

  /**
   * `filtered_item` after the inner loop of process_data has visited fields:
   * each field that is a key of item is copied, a repeated field rewrites its
   * own entry.
   */
  function Project(item: Dict, fields: seq<string>): Dict
  {
    if fields == [] then []
    else
      var f := fields[|fields| - 1];
      var prior := Project(item, fields[..|fields| - 1]);
      if Has(item, f) then Put(prior, f, Get(item, f)) else prior
  }

  /**
   * A projected record has exactly the keys that are both requested and
   * present in the item, each with the item's value, and no key twice.
   */
  lemma {:induction false} ProjectLookup(item: Dict, fields: seq<string>)
    ensures forall k :: Lookup(Project(item, fields), k) == if k in fields && Has(item, k) then Lookup(item, k) else None
    ensures DistinctKeys(Project(item, fields))
  {
    if fields != [] {
      var front := fields[..|fields| - 1];
      ProjectLookup(item, front);
      assert fields == front + [fields[|fields| - 1]];
    }
  }

  /** The projection only looks at the item's entries for the requested fields. */
  lemma {:induction false} ProjectCongruent(x: Dict, y: Dict, fields: seq<string>)
    requires forall k :: k in fields ==> Lookup(x, k) == Lookup(y, k)
    ensures Project(x, fields) == Project(y, fields)
  {
    if fields != [] {
      var f := fields[|fields| - 1];
      ProjectCongruent(x, y, fields[..|fields| - 1]);
      SameEntry(x, y, f);
    }
  }

  /** Projecting a projected record on the same fields changes nothing. */
  lemma ProjectIdempotent(item: Dict, fields: seq<string>)
    ensures Project(Project(item, fields), fields) == Project(item, fields)
  {
    ProjectLookup(item, fields);
    ProjectCongruent(Project(item, fields), item, fields);
  }

  /** process_data's output: one projected record per input record, in order. */
  function ProjectAll(items: seq<Dict>, fields: seq<string>): (out: seq<Dict>)
    ensures |out| == |items|
  {
    seq(|items|, i requires 0 <= i < |items| => Project(items[i], fields))
  }

  /** Projecting the output of process_data again with the same fields yields the same list. */
  lemma ProjectAllIdempotent(items: seq<Dict>, fields: seq<string>)
    ensures ProjectAll(ProjectAll(items, fields), fields) == ProjectAll(items, fields)
  {
    forall i | 0 <= i < |items| ensures Project(Project(items[i], fields), fields) == Project(items[i], fields) {
      ProjectIdempotent(items[i], fields);
    }
  }

  /** The nested loops of graph.py:297-303. */
  method ProjectRecords(items: seq<Dict>, fields: seq<string>) returns (out: seq<Dict>)
    ensures out == ProjectAll(items, fields)
    ensures forall i, k :: 0 <= i < |out| ==>
              Lookup(out[i], k) == if k in fields && Has(items[i], k) then Lookup(items[i], k) else None
  {
    out := [];
    var i := 0;
    while i < |items|
      invariant 0 <= i <= |items|
      invariant out == ProjectAll(items[..i], fields)
    {
      var item := items[i];
      var filtered: Dict := [];
      var j := 0;
      while j < |fields|
        invariant 0 <= j <= |fields|
        invariant filtered == Project(item, fields[..j])
      {
        var field := fields[j];
        assert fields[..j + 1][..j] == fields[..j];
        if Has(item, field) {
          filtered := Put(filtered, field, Get(item, field));
        }
        j := j + 1;
      }
      assert fields[..j] == fields;
      out := out + [filtered];
      i := i + 1;
    }
    assert items[..i] == items;
    forall i | 0 <= i < |out| ensures forall k :: Lookup(out[i], k) == if k in fields && Has(items[i], k) then Lookup(items[i], k) else None {
      ProjectLookup(items[i], fields);
    }
  }

  // ----- Sheet rows -----

  /** The cells of one data row: the record's value under each header, '' where it has none (graph.py:478). */
  function RowValues(item: Dict, headers: seq<string>): (cells: seq<Json>)
    ensures |cells| == |headers|
  {
    seq(|headers|, j requires 0 <= j < |headers| => GetOr(item, headers[j], JStr("")))
  }

  /**
   * The rows appended to the worksheet for a list of records: nothing for no
   * records; otherwise a header row holding the first record's keys in order,
   * then one row per record, in order, with that record's value under each
   * header or '' where the record lacks the key.
   */
  predicate IsSheetLayout(records: seq<Dict>, rows: seq<seq<Json>>)
  {
    if records == [] then rows == []
    else
      var headers := Keys(records[0]);
      && |rows| == |records| + 1
      && rows[0] == seq(|headers|, j requires 0 <= j < |headers| => JStr(headers[j]))
      && (forall r :: 1 <= r < |rows| ==> |rows[r]| == |headers|)
      && forall r, j :: 1 <= r < |rows| && 0 <= j < |headers| ==>
           rows[r][j] == GetOr(records[r - 1], headers[j], JStr(""))
  }

  /** The layout is a function of the records: two row lists that both fit it are equal. */
  lemma SheetLayoutUnique(records: seq<Dict>, a: seq<seq<Json>>, b: seq<seq<Json>>)
    requires IsSheetLayout(records, a) && IsSheetLayout(records, b)
    ensures a == b
  {
    if records != [] {
      forall r | 0 <= r < |a| ensures a[r] == b[r] {
        if r > 0 {
          var headers := Keys(records[0]);
          assert |a[r]| == |headers| == |b[r]|;
          forall j | 0 <= j < |headers| ensures a[r][j] == b[r][j] {
            assert a[r][j] == GetOr(records[r - 1], headers[j], JStr(""));
          }
        }
      }
    }
  }

  /** The header row and the loop of graph.py:472-479 that appends one row per record. */
  method LayoutRows(records: seq<Dict>) returns (rows: seq<seq<Json>>)
    ensures IsSheetLayout(records, rows)
  {
    rows := [];
    if records != [] {
      var headers := Keys(records[0]);
      rows := [seq(|headers|, j requires 0 <= j < |headers| => JStr(headers[j]))];
      var i := 0;
      while i < |records|
        invariant 0 <= i <= |records|
        invariant |rows| == i + 1
        invariant rows[0] == seq(|headers|, j requires 0 <= j < |headers| => JStr(headers[j]))
        invariant forall r :: 1 <= r < |rows| ==> rows[r] == RowValues(records[r - 1], headers)
      {
        rows := rows + [RowValues(records[i], headers)];
        i := i + 1;
      }
    }
  }
}
