/** The Excel download page (pages/reports/ExcelExport.tsx): a period, a set
    of chosen data kinds, and the export request assembled from them. */
module ExcelExport {
  import opened Seqs
  import opened Text

  /** One entry of the catalog of exportable data; `caption` is the `label` shown for it. */
  datatype DataType = DataType(id: string, caption: string)

  /** `dataTypes`, in the order the page lists them. */
  const DataTypes: seq<DataType> := [
    DataType("sales", "매출 내역"),
    DataType("expenses", "지출 내역"),
    DataType("payroll", "급여 내역"),
    DataType("customers", "고객 정보"),
    DataType("vehicles", "차량 정보"),
    DataType("schedules", "예약 일정"),
    DataType("maintenance", "정비 이력")
  ]

  function IdOf(dt: DataType): string { dt.id }

  function LabelOf(dt: DataType): string { dt.caption }

  /** `xs.map(f)` for the catalog. */
  function MapOver(f: DataType -> string, xs: seq<DataType>): (r: seq<string>)
    ensures |r| == |xs| && forall i :: 0 <= i < |xs| ==> r[i] == f(xs[i])
  {
    seq(|xs|, i requires 0 <= i < |xs| => f(xs[i]))
  }

  /** No element occurs twice. */
  predicate Distinct<T(==)>(s: seq<T>)
  {
    forall i, j :: 0 <= i < j < |s| ==> s[i] != s[j]
  }

  /** The catalog has seven entries whose ids and labels are all different. */
  lemma CatalogSpec()
    ensures |DataTypes| == 7
    ensures Distinct(MapOver(IdOf, DataTypes)) && Distinct(MapOver(LabelOf, DataTypes))
  {
  }

  /** `dt => selectedData.includes(dt.id)`. */
  function IsSelected(selected: seq<string>): DataType -> bool
  {
    (dt: DataType) => dt.id in selected
  }

  /** The labels of the chosen kinds, in catalog order. */
  function SelectedLabels(selected: seq<string>): seq<string>
  {
    MapOver(LabelOf, Filter(IsSelected(selected), DataTypes))
  }

  /** What pressing the download button does: a warning when nothing is
      chosen, otherwise the announcement of the period and the labels. */
  datatype ExportOutcome = NothingSelected | Started(startDate: string, endDate: string, labels: string)

  /** The labels listed are exactly those of the chosen catalog entries, in
      catalog order; ids outside the catalog contribute nothing. */
  lemma SelectedLabelsSpec(selected: seq<string>, k: int)
    requires 0 <= k < |DataTypes|
    ensures DataTypes[k].caption in SelectedLabels(selected) <==> DataTypes[k].id in selected
    ensures IsSubsequence(SelectedLabels(selected), MapOver(LabelOf, DataTypes))
  {
    var kept := Filter(IsSelected(selected), DataTypes);
    CatalogSpec();
    if DataTypes[k].caption in SelectedLabels(selected) {
      var i :| 0 <= i < |kept| && kept[i].caption == DataTypes[k].caption;
      assert kept[i] in DataTypes && IsSelected(selected)(kept[i]);
      var j :| 0 <= j < |DataTypes| && DataTypes[j] == kept[i];
      assert MapOver(LabelOf, DataTypes)[j] == MapOver(LabelOf, DataTypes)[k];
    }
    if DataTypes[k].id in selected {
      assert IsSelected(selected)(DataTypes[k]);
      assert DataTypes[k] in kept;
    }
    FilterIsSubsequence(IsSelected(selected), DataTypes);
    MapKeepsSubsequence(LabelOf, kept, DataTypes);
  }

  lemma {:induction false} MapKeepsSubsequence(f: DataType -> string, a: seq<DataType>, b: seq<DataType>)
    requires IsSubsequence(a, b)
    ensures IsSubsequence(MapOver(f, a), MapOver(f, b))
    decreases |b|
  {
    if a != [] {
      var b' := b[..|b| - 1];
      var fa := MapOver(f, a);
      var fb := MapOver(f, b);
      assert fb[..|fb| - 1] == MapOver(f, b');
      if a[|a| - 1] == b[|b| - 1] {
        MapKeepsSubsequence(f, a[..|a| - 1], b');
        assert fa[..|fa| - 1] == MapOver(f, a[..|a| - 1]);
      } else {
        MapKeepsSubsequence(f, a, b');
        if fa[|fa| - 1] == fb[|fb| - 1] {
          SubsequenceDropLast(fa, MapOver(f, b'));
          assert fa[..|fa| - 1] == MapOver(f, a[..|a| - 1]);
          SubsequenceExtend(fa[..|fa| - 1], MapOver(f, b'), fb[|fb| - 1]);
          assert MapOver(f, b') + [fb[|fb| - 1]] == fb;
        } else {
          SubsequenceExtend(fa, MapOver(f, b'), fb[|fb| - 1]);
          assert MapOver(f, b') + [fb[|fb| - 1]] == fb;
        }
      }
    }
  }

  /** Choosing everything lists every label of the catalog in order. */
  lemma SelectAllListsEverything()
    ensures SelectedLabels(MapOver(IdOf, DataTypes)) == MapOver(LabelOf, DataTypes)
  {
    var ids := MapOver(IdOf, DataTypes);
    forall i | 0 <= i < |DataTypes| ensures IsSelected(ids)(DataTypes[i]) {
      assert ids[i] == DataTypes[i].id;
    }
    FilterAll(IsSelected(ids), DataTypes);
  }

  /** `item => item !== id`. */
  function Other(id: string): string -> bool
  {
    (item: string) => item != id
  }

  /** `handleToggleData`: drop `id` if chosen, otherwise append it. */
  function Toggle(selected: seq<string>, id: string): seq<string>
  {
    if id in selected then Filter(Other(id), selected) else selected + [id]
  }

  lemma {:induction false} FilterKeepsDistinct<T>(p: T -> bool, s: seq<T>)
    requires Distinct(s)
    ensures Distinct(Filter(p, s))
    decreases |s|
  {
    if s != [] {
      var s' := s[..|s| - 1];
      FilterKeepsDistinct(p, s');
      var init := Filter(p, s');
      assert s[|s| - 1] !in s';
      assert s[|s| - 1] !in init;
    }
  }

  /** Toggling flips whether `id` is chosen and nothing else; it never
      introduces a duplicate; toggling an unchosen id twice restores the
      selection exactly, and a chosen id twice restores it as a set. */
  lemma ToggleSpec(selected: seq<string>, id: string, x: string)
    ensures x in Toggle(selected, id) <==> (if x == id then id !in selected else x in selected)
    ensures Distinct(selected) ==> Distinct(Toggle(selected, id))
    ensures id !in selected ==> Toggle(Toggle(selected, id), id) == selected
    ensures x in Toggle(Toggle(selected, id), id) <==> x in selected
  {
    if id in selected {
      if x != id && x in selected {
        var i :| 0 <= i < |selected| && selected[i] == x;
        assert Other(id)(selected[i]);
      }
      if Distinct(selected) {
        FilterKeepsDistinct(Other(id), selected);
      }
      assert id !in Filter(Other(id), selected) by {
        forall i | 0 <= i < |Filter(Other(id), selected)| ensures Filter(Other(id), selected)[i] != id {
          assert Other(id)(Filter(Other(id), selected)[i]);
        }
      }
    } else {
      var s := selected + [id];
      assert s[..|s| - 1] == selected;
      forall i | 0 <= i < |selected| ensures Other(id)(selected[i]) {
      }
      FilterAll(Other(id), selected);
    }
  }

  /** The page state: the period and the chosen data kinds, which never
      repeat an id. */
  class ExcelExportPage {
    var startDate: string
    var endDate: string
    var selectedData: seq<string>

    predicate Valid()
      reads this
    {
      Distinct(selectedData)
    }

    /** The page opens on the year 2025 with sales chosen. */
    constructor()
      ensures Valid()
      ensures startDate == "2025-01-01" && endDate == "2025-12-31" && selectedData == ["sales"]
    {
      startDate := "2025-01-01";
      endDate := "2025-12-31";
      selectedData := ["sales"];
    }

    method SetStartDate(value: string)
      modifies this
      ensures startDate == value && endDate == old(endDate) && selectedData == old(selectedData)
    {
      startDate := value;
    }

    method SetEndDate(value: string)
      modifies this
      ensures endDate == value && startDate == old(startDate) && selectedData == old(selectedData)
    {
      endDate := value;
    }

    method HandleToggleData(id: string)
      requires Valid()
      modifies this
      ensures Valid()
      ensures selectedData == Toggle(old(selectedData), id)
      ensures startDate == old(startDate) && endDate == old(endDate)
    {
      ToggleSpec(selectedData, id, id);
      if id in selectedData {
        selectedData := Filter(Other(id), selectedData);
      } else {
        selectedData := selectedData + [id];
      }
    }

    /** `handleExport`: changes nothing and reports what the page announces. */
    method HandleExport() returns (outcome: ExportOutcome)
      ensures outcome == NothingSelected <==> selectedData == []
      ensures outcome.Started? ==> outcome == Started(startDate, endDate, Join(SelectedLabels(selectedData), ", "))
    {
      if |selectedData| == 0 {
        return NothingSelected;
      }
      var labels := MapOver(LabelOf, Filter(IsSelected(selectedData), DataTypes));
      outcome := Started(startDate, endDate, Join(labels, ", "));
    }

    method HandleSelectAll()
      modifies this
      ensures Valid()
      ensures selectedData == MapOver(IdOf, DataTypes)
      ensures startDate == old(startDate) && endDate == old(endDate)
    {
      CatalogSpec();
      selectedData := MapOver(IdOf, DataTypes);
    }

    method HandleDeselectAll()
      modifies this
      ensures Valid()
      ensures selectedData == []
      ensures startDate == old(startDate) && endDate == old(endDate)
    {
      selectedData := [];
    }
  }
}
