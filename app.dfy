/**
 * The state of the AppWasserMonat component and the handlers that change it. Each
 * piece of state the filter logic uses becomes a field; each handler a method that
 * says what it sets and that every other field keeps its value.
 */
module App {
  import opened Wrappers
  import opened WasserRecords
  import opened FilterView
  import opened Selectors

  class WasserMonatState {
    var data: seq<Record>
    var filteredData: seq<Row>
    var years: seq<int>
    var months: seq<int>
    var selectedYear: Option<int>
    var selectedMonth: Option<int>
    var editingRecord: Option<Record>

    /** The year and month the shown view was last computed for. */
    ghost var viewYear: Option<int>
    ghost var viewMonth: Option<int>

    /**
     * The option lists belong to the loaded data, and the table shows either nothing
     * (never filtered) or the view of the loaded data for some year and month.
     */
    ghost predicate Valid()
      reads this
    {
      years == UniqueYears(data) && months == UniqueMonths(data)
      && (filteredData == [] || filteredData == FilterData(data, viewYear, viewMonth))
    }

    /** The modal is open exactly while a record is being edited. */
    predicate ModalOpen()
      reads this
    {
      editingRecord.Some?
    }

    /** The initial `useState` values. */
    constructor ()
      ensures Valid()
      ensures data == [] && filteredData == [] && years == [] && months == []
      ensures selectedYear == None && selectedMonth == None && editingRecord == None
    {
      data, filteredData, years, months := [], [], [], [];
      selectedYear, selectedMonth, editingRecord := None, None, None;
      viewYear, viewMonth := None, None;
    }

    /** `fetchData` once the GET has returned the records: the selected month is not touched. */
    method Load(allData: seq<Record>)
      modifies this
      ensures Valid()
      ensures data == allData
      ensures years == UniqueYears(allData) && months == UniqueMonths(allData)
      ensures selectedYear == MaxYear(years)
      ensures filteredData == FilterData(allData, selectedYear, None)
      ensures selectedMonth == old(selectedMonth) && editingRecord == old(editingRecord)
    {
      var uniqueYears := UniqueYears(allData);
      var uniqueMonths := UniqueMonths(allData);
      var latestYear := MaxYear(uniqueYears);
      var view := ComputeView(allData, latestYear, None);
      data, years, months := allData, uniqueYears, uniqueMonths;
      selectedYear, filteredData := latestYear, view;
      viewYear, viewMonth := latestYear, None;
    }

    /** The year Select's `onChange`: only the selection changes, not the table. */
    method SelectYear(value: int)
      modifies this
      requires Valid()
      ensures Valid()
      ensures selectedYear == Some(value)
      ensures filteredData == old(filteredData) && data == old(data)
      ensures years == old(years) && months == old(months)
      ensures selectedMonth == old(selectedMonth) && editingRecord == old(editingRecord)
    {
      selectedYear := Some(value);
    }

    /** The month Select's `onChange`; clearing it (`allowClear`) gives None. */
    method SelectMonth(value: Option<int>)
      modifies this
      requires Valid()
      ensures Valid()
      ensures selectedMonth == value
      ensures filteredData == old(filteredData) && data == old(data)
      ensures years == old(years) && months == old(months)
      ensures selectedYear == old(selectedYear) && editingRecord == old(editingRecord)
    {
      selectedMonth := value;
    }

    /** `handleFilter` (the Filtern button): the view of the current data and selection. */
    method HandleFilter()
      modifies this
      requires Valid()
      ensures Valid()
      ensures filteredData == FilterData(data, selectedYear, selectedMonth)
      ensures data == old(data) && years == old(years) && months == old(months)
      ensures selectedYear == old(selectedYear) && selectedMonth == old(selectedMonth)
      ensures editingRecord == old(editingRecord)
    {
      filteredData := ComputeView(data, selectedYear, selectedMonth);
      viewYear, viewMonth := selectedYear, selectedMonth;
    }

    /** `resetFilter`: back to the latest year of the option list, with no month. */
    method ResetFilter()
      modifies this
      requires Valid()
      ensures Valid()
      ensures selectedYear == MaxYear(years) && selectedMonth == None
      ensures filteredData == FilterData(data, selectedYear, None)
      ensures data == old(data) && years == old(years) && months == old(months)
      ensures editingRecord == old(editingRecord)
    {
      var latestYear := MaxYear(years);
      selectedYear := latestYear;
      selectedMonth := None;
      filteredData := ComputeView(data, latestYear, None);
      viewYear, viewMonth := latestYear, None;
    }

    /** `handleEdit`: opens the modal on the given record. */
    method HandleEdit(record: Record)
      modifies this
      requires Valid()
      ensures Valid() && ModalOpen()
      ensures editingRecord == Some(record)
      ensures data == old(data) && filteredData == old(filteredData)
      ensures years == old(years) && months == old(months)
      ensures selectedYear == old(selectedYear) && selectedMonth == old(selectedMonth)
    {
      editingRecord := Some(record);
    }

    /** The modal's `onCancel`: closes it. */
    method CancelEdit()
      modifies this
      requires Valid()
      ensures Valid() && !ModalOpen()
      ensures editingRecord == None
      ensures data == old(data) && filteredData == old(filteredData)
      ensures years == old(years) && months == old(months)
      ensures selectedYear == old(selectedYear) && selectedMonth == old(selectedMonth)
    {
      editingRecord := None;
    }
  }

  /**
   * A session: load, change both selections, press Filtern, press Reset Filter.
   * The table keeps the default view until Filtern is pressed, and Reset brings it back.
   */
  method FilterSession(allData: seq<Record>, year: int, month: Option<int>)
    returns (loaded: seq<Row>, selected: seq<Row>, filtered: seq<Row>, reset: seq<Row>)
    ensures loaded == FilterData(allData, MaxYear(UniqueYears(allData)), None)
    ensures selected == loaded
    ensures filtered == FilterData(allData, Some(year), month)
    ensures reset == loaded
  {
    var app := new WasserMonatState();
    app.Load(allData);
    loaded := app.filteredData;
    app.SelectYear(year);
    app.SelectMonth(month);
    selected := app.filteredData;
    app.HandleFilter();
    filtered := app.filteredData;
    app.ResetFilter();
    reset := app.filteredData;
  }
}
