/** `BaseEngine` (project/apps/engines/base.py): the guarded `_entries` store that
    both site engines inherit. The guards are stated once as functions, used by
    this class and by the standalone draft engine, whose inline copies are the same. */
module Base {
  import opened Wrappers
  import opened Text
  import opened Records

  const CSV_EXTENSION := ".csv"
  const DEFAULT_FILENAME := "google_maps_leads.csv"

  const BAD_EXTENSION := ValueError("Use .csv file extension")
  const EMPTY_ON_SAVE := NotImplementedError("Entries are empty, call .run() method first to save them")
  const EMPTY_ON_READ := NotImplementedError("Entries are empty, call .run() method first to create them")
  const SET_REFUSED := ValueError("Cannot set value to data. This is not allowed")

  /** The call `CsvWriter(filename, FIELD_NAMES).append(entries)`; the writer
      itself (header and append logic) is an external collaborator. */
  datatype CsvAppend = CsvAppend(filename: string, fieldNames: seq<string>, rows: seq<Record>)

  /** `save_to_csv`: the extension check, then the emptiness check, then the hand-off. */
  function SaveDecision(filename: string, fieldNames: seq<string>, entries: seq<Record>): Result<CsvAppend, Error> {
    if !EndsWith(filename, CSV_EXTENSION) then Failure(BAD_EXTENSION)
    else if entries == [] then Failure(EMPTY_ON_SAVE)
    else Success(CsvAppend(filename, fieldNames, entries))
  }

  /** The `entries` property getter. */
  function EntriesView(entries: seq<Record>): Result<seq<Record>, Error> {
    if entries == [] then Failure(EMPTY_ON_READ) else Success(entries)
  }

  /** The writer is reached exactly when the name is some stem followed by ".csv" and
      there are entries; it then receives the whole of `_entries` with the field names. */
  lemma SaveReachesWriter(filename: string, fieldNames: seq<string>, entries: seq<Record>)
    ensures SaveDecision(filename, fieldNames, entries).Success? <==>
      (exists stem: string :: filename == stem + CSV_EXTENSION) && entries != []
    ensures SaveDecision(filename, fieldNames, entries).Success? ==>
      SaveDecision(filename, fieldNames, entries).value == CsvAppend(filename, fieldNames, entries)
  {
    EndsWithIffStem(filename, CSV_EXTENSION);
  }

  /** The extension is checked first: a bad name fails with `ValueError` whatever the
      entries are, an empty store only matters for a `.csv` name, and a failed save
      never hands anything to the writer. */
  lemma SaveGuardOrder(filename: string, fieldNames: seq<string>, entries: seq<Record>)
    ensures (forall stem: string :: filename != stem + CSV_EXTENSION) ==>
      SaveDecision(filename, fieldNames, entries) == Failure(BAD_EXTENSION)
    ensures (exists stem: string :: filename == stem + CSV_EXTENSION) && entries == [] ==>
      SaveDecision(filename, fieldNames, entries) == Failure(EMPTY_ON_SAVE)
  {
    EndsWithIffStem(filename, CSV_EXTENSION);
  }

  /** For a `.csv` name, saving reaches the writer exactly when the getter succeeds,
      and the writer receives exactly what the getter returns. */
  lemma SaveAgreesWithGetter(stem: string, fieldNames: seq<string>, entries: seq<Record>)
    ensures SaveDecision(stem + CSV_EXTENSION, fieldNames, entries).Success? <==> EntriesView(entries).Success?
    ensures EntriesView(entries).Success? ==>
      SaveDecision(stem + CSV_EXTENSION, fieldNames, entries).value.rows == EntriesView(entries).value
  {
    assert (stem + CSV_EXTENSION)[|stem + CSV_EXTENSION| - |CSV_EXTENSION|..] == CSV_EXTENSION;
  }

  /** The extension check is case-sensitive and on the whole suffix. */
  lemma ExtensionExamples()
    ensures !EndsWith("leads", CSV_EXTENSION)
    ensures !EndsWith("leads.CSV", CSV_EXTENSION)
    ensures !EndsWith("leads.csv.bak", CSV_EXTENSION)
    ensures EndsWith(DEFAULT_FILENAME, CSV_EXTENSION)
    ensures EndsWith(".csv", CSV_EXTENSION)
  {
    assert "leads.CSV"[5..] != CSV_EXTENSION by { assert "leads.CSV"[6] == 'C'; }
    assert "leads.csv.bak"[9..] != CSV_EXTENSION by { assert "leads.csv.bak"[9] == '.' && "leads.csv.bak"[10] == 'b'; }
  }

  /** The state the two site engines inherit: `_entries` and the class's `FIELD_NAMES`. */
  class BaseEngine {
    /** `_entries` */
    var entries: seq<Record>
    /** `FIELD_NAMES` of the concrete engine */
    const fieldNames: seq<string>

    /** The engines' `__init__` sets `_entries = []`. */
    constructor (fieldNames: seq<string>)
      ensures this.fieldNames == fieldNames && entries == []
    {
      this.fieldNames := fieldNames;
      entries := [];
    }

    /** `save_to_csv(filename)`: the result is the writer call made, or the exception raised. */
    method SaveToCsv(filename: string := DEFAULT_FILENAME) returns (r: Result<CsvAppend, Error>)
      ensures r == SaveDecision(filename, fieldNames, entries)
    {
      if !EndsWith(filename, CSV_EXTENSION) {
        return Failure(BAD_EXTENSION);
      }
      if entries == [] {
        return Failure(EMPTY_ON_SAVE);
      }
      r := Success(CsvAppend(filename, fieldNames, entries));
    }

    /** The `entries` getter: raises while `_entries` is empty, else returns it as is. */
    method Entries() returns (r: Result<seq<Record>, Error>)
      ensures r == EntriesView(entries)
      ensures r.Failure? <==> entries == []
      ensures r.Success? ==> r.value == entries
    {
      if entries == [] {
        return Failure(EMPTY_ON_READ);
      }
      r := Success(entries);
    }

    /** The `entries` setter: raises for every value. It has no `modifies` clause,
        so `_entries` is the same before and after. */
    method SetEntries(value: seq<Record>) returns (r: Outcome<Error>)
      ensures r == Fail(SET_REFUSED)
    {
      r := Fail(SET_REFUSED);
    }
  }
}
