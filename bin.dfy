/**
 * The recycle bin: a table of deleted records, projected from an id-keyed
 * object, sorted on a copy by one of five columns in either direction, and
 * numbered from 1. Clicking a column header changes the sort configuration.
 */
module RecycleBin {
  import opened Options
  import Collation

  /**
   * The `date` field: its text as stored, and the timestamp the host's date
   * parser gives for that text (`None` for an invalid date).
   */
  datatype DateField = DateField(text: string, time: Option<int>)

  datatype BinRecord = BinRecord(
    id: Option<string>,
    pickupLocation: Option<string>, receiverName: Option<string>,
    dropLocation: Option<string>, contact: Option<string>,
    date: Option<DateField>)

  /** The five sortable columns, in header order. */
  datatype SortKey = PickupLocation | ReceiverName | DropLocation | Contact | Date

  datatype Direction = Asc | Desc

  datatype SortConfig = SortConfig(key: SortKey, direction: Direction)

  /** The table starts sorted by pick-up location, ascending. */
  const InitialConfig: SortConfig := SortConfig(PickupLocation, Asc)

  /**
   * The configuration after clicking the header of `key`: the key becomes
   * `key`; the direction becomes descending exactly when that key was already
   * sorted ascending, and ascending otherwise.
   */
  function NextConfig(prev: SortConfig, key: SortKey): (next: SortConfig)
    ensures next.key == key
    ensures next.direction == Desc <==> prev == SortConfig(key, Asc)
  {
    SortConfig(key, if prev.key == key && prev.direction == Asc then Desc else Asc)
  }

  /** Clicking the active column flips its direction; a new column starts ascending. */
  lemma ClickToggleOrReset(prev: SortConfig, key: SortKey)
    ensures prev.key == key ==> NextConfig(prev, key).direction != prev.direction
    ensures prev.key != key ==> NextConfig(prev, key) == SortConfig(key, Asc)
  {
  }

  /**
   * Two clicks on the active column restore the configuration; two clicks on
   * another column leave it sorted descending.
   */
  lemma TwoClicks(prev: SortConfig, key: SortKey)
    ensures prev.key == key ==> NextConfig(NextConfig(prev, key), key) == prev
    ensures prev.key != key ==> NextConfig(NextConfig(prev, key), key) == SortConfig(key, Desc)
  {
  }

  /** The raw value of a column: the string field, or the date's text. */
  function Field(r: BinRecord, key: SortKey): Option<string> {
    match key
    case PickupLocation => r.pickupLocation
    case ReceiverName => r.receiverName
    case DropLocation => r.dropLocation
    case Contact => r.contact
    case Date => if r.date.Some? then Some(r.date.value.text) else None
  }

  /** The value of the column is truthy: present and not the empty string. */
  predicate Truthy(r: BinRecord, key: SortKey) {
    Field(r, key).Some? && Field(r, key).value != ""
  }

  /** The record takes part in the order: a truthy value, and for dates a valid one. */
  predicate Comparable(r: BinRecord, key: SortKey) {
    Truthy(r, key) && (key == Date ==> r.date.value.time.Some?)
  }

  predicate AllComparable(s: seq<BinRecord>, key: SortKey) {
    forall i :: 0 <= i < |s| ==> Comparable(s[i], key)
  }

  /**
   * The sort's comparison: 0 when either value is missing or empty; dates by
   * timestamp difference (an invalid date makes it NaN, which the host's sort
   * reads as 0); other columns by string order; descending swaps the operands.
   */
  function Comparator(config: SortConfig, a: BinRecord, b: BinRecord): (r: int)
    ensures !Truthy(a, config.key) || !Truthy(b, config.key) ==> r == 0
    ensures !Comparable(a, config.key) || !Comparable(b, config.key) ==> r == 0
  {
    if !Truthy(a, config.key) || !Truthy(b, config.key) then 0
    else if config.key == Date then
      var ta, tb := a.date.value.time, b.date.value.time;
      if ta.None? || tb.None? then 0
      else if config.direction == Asc then ta.value - tb.value
      else tb.value - ta.value
    else
      var sa, sb := Field(a, config.key).value, Field(b, config.key).value;
      if config.direction == Asc then Collation.Compare(sa, sb) else Collation.Compare(sb, sa)
  }

  /**
   * What the comparison says when both records have a value: the timestamp
   * difference for dates, and the string order for other columns, reversed for
   * descending.
   */
  lemma ComparatorMeaning(config: SortConfig, a: BinRecord, b: BinRecord)
    requires Comparable(a, config.key) && Comparable(b, config.key)
    ensures config.key == Date ==>
      var ta, tb := a.date.value.time.value, b.date.value.time.value;
      Comparator(config, a, b) == if config.direction == Asc then ta - tb else tb - ta
    ensures config.key != Date ==>
      var sa, sb := Field(a, config.key).value, Field(b, config.key).value;
      && (Comparator(config, a, b) == 0 <==> sa == sb)
      && (config.direction == Asc ==> (Comparator(config, a, b) <= 0 <==> Collation.Le(sa, sb)))
      && (config.direction == Desc ==> (Comparator(config, a, b) <= 0 <==> Collation.Le(sb, sa)))
  {
  }

  /** Descending compares (a, b) exactly as ascending compares (b, a). */
  lemma DescendingSwapsOperands(key: SortKey, a: BinRecord, b: BinRecord)
    ensures Comparator(SortConfig(key, Desc), a, b) == Comparator(SortConfig(key, Asc), b, a)
  {
  }

  /** Swapping the records negates the comparison, missing values included. */
  lemma ComparatorAntisymmetric(config: SortConfig, a: BinRecord, b: BinRecord)
    ensures Comparator(config, a, b) == -Comparator(config, b, a)
  {
    if config.key != Date && Truthy(a, config.key) && Truthy(b, config.key) {
      Collation.Antisymmetric(Field(a, config.key).value, Field(b, config.key).value);
    }
  }

  /**
   * Among records that all have a value for the key (for `date`, one the host
   * can parse), the comparison is transitive.
   */
  lemma ComparatorTransitive(config: SortConfig, a: BinRecord, b: BinRecord, c: BinRecord)
    requires Comparable(a, config.key) && Comparable(b, config.key) && Comparable(c, config.key)
    requires Comparator(config, a, b) <= 0 && Comparator(config, b, c) <= 0
    ensures Comparator(config, a, c) <= 0
  {
    if config.key != Date {
      var sa, sb, sc := Field(a, config.key).value, Field(b, config.key).value, Field(c, config.key).value;
      if config.direction == Asc {
        Collation.Transitive(sa, sb, sc);
      } else {
        Collation.Transitive(sc, sb, sa);
      }
    }
  }

  /**
   * A record without a value compares equal to everything, so the comparison
   * is not transitive once one is present: "b" = missing = "a", yet "b" > "a".
   */
  lemma MissingValueBreaksTransitivity()
    ensures var config := InitialConfig;
      var withB := BinRecord(None, Some("b"), None, None, None, None);
      var missing := BinRecord(None, None, None, None, None, None);
      var withA := BinRecord(None, Some("a"), None, None, None, None);
      && Comparator(config, withB, missing) == 0
      && Comparator(config, missing, withA) == 0
      && Comparator(config, withB, withA) > 0
  {
  }

  /** No pair of records is out of order under the comparator. */
  predicate Sorted(s: seq<BinRecord>, config: SortConfig) {
    forall i, j :: 0 <= i < j < |s| ==> Comparator(config, s[i], s[j]) <= 0
  }

  /**
   * What sortedness means when every record has a value (for `date`, one the
   * host can parse): dates by timestamp, other columns by string order, in the
   * configured direction.
   */
  lemma SortedByColumn(s: seq<BinRecord>, config: SortConfig, i: int, j: int)
    requires AllComparable(s, config.key) && Sorted(s, config)
    requires 0 <= i < j < |s|
    ensures config.key == Date && config.direction == Asc ==>
      s[i].date.value.time.value <= s[j].date.value.time.value
    ensures config.key == Date && config.direction == Desc ==>
      s[i].date.value.time.value >= s[j].date.value.time.value
    ensures config.key != Date && config.direction == Asc ==>
      Collation.Le(Field(s[i], config.key).value, Field(s[j], config.key).value)
    ensures config.key != Date && config.direction == Desc ==>
      Collation.Le(Field(s[j], config.key).value, Field(s[i], config.key).value)
  {
  }

  function Reverse(s: seq<BinRecord>): (r: seq<BinRecord>)
    ensures |r| == |s|
    ensures forall i :: 0 <= i < |s| ==> r[i] == s[|s| - 1 - i]
  {
    seq(|s|, i requires 0 <= i < |s| => s[|s| - 1 - i])
  }

  /** Sorted descending by a column is sorted ascending by it read backwards. */
  lemma DescendingIsReversedAscending(s: seq<BinRecord>, key: SortKey)
    ensures Sorted(s, SortConfig(key, Desc)) <==> Sorted(Reverse(s), SortConfig(key, Asc))
  {
    var r := Reverse(s);
    var n := |s|;
    if Sorted(s, SortConfig(key, Desc)) {
      forall i, j | 0 <= i < j < n
        ensures Comparator(SortConfig(key, Asc), r[i], r[j]) <= 0
      {
        DescendingSwapsOperands(key, s[n - 1 - j], s[n - 1 - i]);
      }
    }
    if Sorted(r, SortConfig(key, Asc)) {
      forall i, j | 0 <= i < j < n
        ensures Comparator(SortConfig(key, Desc), s[i], s[j]) <= 0
      {
        assert s[i] == r[n - 1 - i] && s[j] == r[n - 1 - j];
        DescendingSwapsOperands(key, s[i], s[j]);
      }
    }
  }

  /**
   * The records sorted on a fresh copy: a permutation of the input (which is
   * left as it was), and in order whenever every record has a value for the key
   * (for `date`, one the host can parse).
   */
  method SortedItems(dataArray: seq<BinRecord>, config: SortConfig) returns (sorted: seq<BinRecord>)
    ensures multiset(sorted) == multiset(dataArray)
    ensures AllComparable(dataArray, config.key) ==> Sorted(sorted, config)
  {
    var a := new BinRecord[|dataArray|](i requires 0 <= i < |dataArray| => dataArray[i]);
    assert a[..] == dataArray;
    ghost var ordered := AllComparable(dataArray, config.key);
    var i := 0;
    while i < a.Length
      invariant 0 <= i <= a.Length
      invariant multiset(a[..]) == multiset(dataArray)
      invariant ordered ==> AllComparable(a[..], config.key)
      invariant ordered ==> Sorted(a[..i], config)
    {
      Insert(a, i, config, ordered);
      i := i + 1;
    }
    assert a[..a.Length] == a[..];
    sorted := a[..];
  }

  /**
   * One step of insertion sort: moves `a[i]` down past every earlier record
   * that compares greater. Only `a[..i + 1]` is rearranged, and it is in order
   * when `a[..i]` was and every record is comparable.
   */
  method Insert(a: array<BinRecord>, i: int, config: SortConfig, ghost ordered: bool)
    requires 0 <= i < a.Length
    requires ordered ==> AllComparable(a[..], config.key) && Sorted(a[..i], config)
    modifies a
    ensures multiset(a[..]) == multiset(old(a[..]))
    ensures a[i + 1..] == old(a[i + 1..])
    ensures multiset(a[..i + 1]) == multiset(old(a[..i + 1]))
    ensures ordered ==> AllComparable(a[..], config.key) && Sorted(a[..i + 1], config)
  {
    var j := i;
    if ordered {
      StartInsertion(a[..], i, config);
    }
    while j > 0 && Comparator(config, a[j - 1], a[j]) > 0
      invariant 0 <= j <= i
      invariant multiset(a[..]) == multiset(old(a[..]))
      invariant a[i + 1..] == old(a[i + 1..])
      invariant multiset(a[..i + 1]) == multiset(old(a[..i + 1]))
      invariant ordered ==> Inserting(a[..], i, j, config)
    {
      ghost var before := a[..];
      a[j - 1], a[j] := a[j], a[j - 1];
      assert a[..] == Swapped(before, j);
      SwapWithinPrefix(before, i, j);
      if ordered {
        StepInsertion(before, i, j, config);
      }
      j := j - 1;
    }
    if ordered {
      FinishInsertion(a[..], i, j, config);
    }
  }

  /** `s` with the records at `j - 1` and `j` exchanged. */
  function Swapped(s: seq<BinRecord>, j: int): (r: seq<BinRecord>)
    requires 0 < j < |s|
    ensures multiset(r) == multiset(s)
  {
    s[j - 1 := s[j]][j := s[j - 1]]
  }

  /** A swap at `j <= i` rearranges `s[..i + 1]` and leaves the rest alone. */
  lemma SwapWithinPrefix(s: seq<BinRecord>, i: int, j: int)
    requires 0 < j <= i < |s|
    ensures Swapped(s, j)[i + 1..] == s[i + 1..]
    ensures multiset(Swapped(s, j)[..i + 1]) == multiset(s[..i + 1])
  {
    var t := Swapped(s, j);
    assert t[..i + 1] == Swapped(s[..i + 1], j);
  }

  /**
   * Midway through inserting the record now at `j` into `s[..i + 1]`: the other
   * records there are in order, and every record after `j` compares greater.
   */
  ghost predicate Inserting(s: seq<BinRecord>, i: int, j: int, config: SortConfig) {
    && 0 <= j <= i < |s|
    && AllComparable(s, config.key)
    && (forall p, q :: 0 <= p < q <= i && p != j && q != j ==> Comparator(config, s[p], s[q]) <= 0)
    && (forall q :: j < q <= i ==> Comparator(config, s[j], s[q]) < 0)
  }

  lemma StartInsertion(s: seq<BinRecord>, i: int, config: SortConfig)
    requires 0 <= i < |s|
    requires AllComparable(s, config.key) && Sorted(s[..i], config)
    ensures Inserting(s, i, i, config)
  {
  }

  lemma StepInsertion(s: seq<BinRecord>, i: int, j: int, config: SortConfig)
    requires Inserting(s, i, j, config)
    requires j > 0 && Comparator(config, s[j - 1], s[j]) > 0
    ensures Inserting(Swapped(s, j), i, j - 1, config)
  {
    ComparatorAntisymmetric(config, s[j - 1], s[j]);
    var t := Swapped(s, j);
    assert AllComparable(t, config.key) by {
      forall k | 0 <= k < |t| ensures Comparable(t[k], config.key) {
        assert k == j - 1 ==> t[k] == s[j];
        assert k == j ==> t[k] == s[j - 1];
      }
    }
  }

  lemma FinishInsertion(s: seq<BinRecord>, i: int, j: int, config: SortConfig)
    requires Inserting(s, i, j, config)
    requires j == 0 || Comparator(config, s[j - 1], s[j]) <= 0
    ensures AllComparable(s, config.key) && Sorted(s[..i + 1], config)
  {
    var r := s[..i + 1];
    forall p, q | 0 <= p < q < |r|
      ensures Comparator(config, r[p], r[q]) <= 0
    {
      if q == j && p < j - 1 {
        ComparatorTransitive(config, s[p], s[j - 1], s[j]);
      }
    }
  }

  /** A table row: the record's number, then its five columns and a restore button. */
  datatype BinRow =
    | Row(serial: nat, record: BinRecord)
    | Placeholder(message: string, colSpan: nat)

  const EmptyMessage: string := "No deleted items found."

  /** One row per record, in order, numbered from 1. */
  function NumberedRows(items: seq<BinRecord>): (rows: seq<BinRow>)
    ensures |rows| == |items|
    ensures forall i :: 0 <= i < |rows| ==> rows[i].Row? && rows[i].serial == i + 1 && rows[i].record == items[i]
  {
    if items == [] then []
    else NumberedRows(items[..|items| - 1]) + [Row(|items|, items[|items| - 1])]
  }

  /** The body of the table: the numbered rows, or the one placeholder row when there are none. */
  function TableRows(sortedItems: seq<BinRecord>): (rows: seq<BinRow>)
    ensures sortedItems == [] <==> rows == [Placeholder(EmptyMessage, 7)]
    ensures sortedItems != [] ==> |rows| == |sortedItems|
    ensures sortedItems != [] ==>
      forall i :: 0 <= i < |rows| ==> rows[i].Row? && rows[i].serial == i + 1 && rows[i].record == sortedItems[i]
  {
    if sortedItems == [] then [Placeholder(EmptyMessage, 7)] else NumberedRows(sortedItems)
  }

  /**
   * One entry of the id-keyed object, in the object's enumeration order: the
   * property name and the record stored under it.
   */
  datatype Entry = Entry(key: string, record: BinRecord)

  /**
   * The `dataObj` prop: left out (`undefined`, so the default `{}` applies),
   * `null` (which the default does not replace), or an object.
   */
  datatype DataObj = Omitted | Null | Object(entries: seq<Entry>)

  /**
   * `Object.values` of the prop after its default: the stored records in
   * enumeration order, or `None` where the call throws, on `null`.
   */
  function DataArray(dataObj: DataObj): (values: Option<seq<BinRecord>>)
    ensures values.None? <==> dataObj.Null?
    ensures dataObj.Omitted? ==> values == Some([])
    ensures dataObj.Object? ==> |values.value| == |dataObj.entries|
    ensures dataObj.Object? ==>
      forall i :: 0 <= i < |values.value| ==> values.value[i] == dataObj.entries[i].record
  {
    match dataObj
    case Omitted => Some([])
    case Null => None
    case Object(entries) => Some(seq(|entries|, i requires 0 <= i < |entries| => entries[i].record))
  }

  /** What the table body renders: its rows, or a thrown error. */
  datatype TableBody = Crashed | Body(rows: seq<BinRow>)

  /** The component's state: the current sort configuration. */
  class Bin {
    var sortConfig: SortConfig

    constructor ()
      ensures sortConfig == InitialConfig
    {
      sortConfig := InitialConfig;
    }

    /** A click on the header of `key`. */
    method HandleSort(key: SortKey)
      modifies this
      ensures sortConfig.key == key
      ensures sortConfig.direction == Desc <==> old(sortConfig) == SortConfig(key, Asc)
      ensures sortConfig == NextConfig(old(sortConfig), key)
    {
      sortConfig := NextConfig(sortConfig, key);
    }

    /**
     * The table body for `dataObj` under the current configuration: a crash
     * for a `null` object; otherwise the numbered rows of a permutation of its
     * values, in order when every value has the sort column (for `date`, one
     * the host can parse), or the
     * placeholder row when there are none.
     */
    method Rows(dataObj: DataObj) returns (body: TableBody)
      ensures body.Crashed? <==> dataObj.Null?
      ensures body.Body? ==> (DataArray(dataObj).value == [] <==> body.rows == [Placeholder(EmptyMessage, 7)])
      ensures body.Body? ==> exists sortedItems ::
        && body.rows == TableRows(sortedItems)
        && multiset(sortedItems) == multiset(DataArray(dataObj).value)
        && (AllComparable(DataArray(dataObj).value, sortConfig.key) ==> Sorted(sortedItems, sortConfig))
    {
      var values := DataArray(dataObj);
      if values.None? {
        return Crashed;
      }
      var dataArray := values.value;
      var sortedItems := SortedItems(dataArray, sortConfig);
      assert sortedItems == [] <==> dataArray == [] by {
        assert |sortedItems| == |multiset(sortedItems)| == |multiset(dataArray)| == |dataArray|;
      }
      body := Body(TableRows(sortedItems));
    }
  }
}
