/**
 * The entry repository of the guestbook (app/internal/data): the Entry
 * record, its JSON form, and the EntryModel with Insert and GetAll over an
 * abstract `entries` table.  The SQL text is not modelled; what is modelled is
 * which columns each statement binds and what the table looks like afterwards.
 */
module Data {
  import opened Wrappers

  /** Go's `int8`, the type of Entry.Rating and of the request's rating. */
  newtype int8 = x: int | -128 <= x < 128

  /** The timestamp the store puts into `created_at`; only its identity matters. */
  type Time = nat

  /** The zero `time.Time` a Go struct carries before anything is stored in it. */
  const ZeroTime: Time := 0

  /** One guestbook submission, one row of the `entries` table. */
  datatype Entry = Entry(
    id: nat,
    createdAt: Time,
    rating: int8,
    testimonial: string,
    lastName: string,
    firstName: string,
    occupation: string,
    github: string)

  /** The errors of this package: the sentinel `ErrRecordNotFound`, or an error of the database driver. */
  datatype Error = RecordNotFound | Driver(message: string)

  // ---------------------------------------------------------------------------
  // Columns and bound arguments
  // ---------------------------------------------------------------------------

  /** A value bound to a statement parameter or read from a column. */
  datatype Value = IntValue(n: int) | TextValue(s: string)

  /** The columns Insert names, in the order of its VALUES list. */
  const InsertColumns: seq<string> :=
    ["rating", "testimonial", "last_name", "first_name", "occupation", "github"]

  /** The value an entry holds in the table column `name`, if there is such a column. */
  function Column(e: Entry, name: string): Option<Value>
  {
    match name
    case "id" => Some(IntValue(e.id))
    case "created_at" => Some(IntValue(e.createdAt))
    case "rating" => Some(IntValue(e.rating as int))
    case "testimonial" => Some(TextValue(e.testimonial))
    case "last_name" => Some(TextValue(e.lastName))
    case "first_name" => Some(TextValue(e.firstName))
    case "occupation" => Some(TextValue(e.occupation))
    case "github" => Some(TextValue(e.github))
    case _ => None
  }

  /** The argument list Insert binds to $1..$6: column i of InsertColumns gets the entry's value in that column. */
  function InsertArgs(e: Entry): (args: seq<Value>)
    ensures |args| == |InsertColumns|
    ensures forall i :: 0 <= i < |args| ==> Column(e, InsertColumns[i]) == Some(args[i])
  {
    [IntValue(e.rating as int), TextValue(e.testimonial), TextValue(e.lastName),
     TextValue(e.firstName), TextValue(e.occupation), TextValue(e.github)]
  }

  /** An argument list the table accepts: an int8 rating followed by five texts. */
  predicate WellTyped(args: seq<Value>)
  {
    |args| == 6 && args[0].IntValue? && -128 <= args[0].n < 128 &&
    forall i :: 1 <= i < 6 ==> args[i].TextValue?
  }

  /**
   * The row the table stores for an INSERT with these arguments: the store
   * supplies `id` and `created_at`, every other column takes its argument.
   */
  function StoredRow(args: seq<Value>, id: nat, now: Time): (row: Entry)
    requires WellTyped(args)
    ensures row.id == id && row.createdAt == now
    ensures forall i :: 0 <= i < 6 ==> Column(row, InsertColumns[i]) == Some(args[i])
  {
    Entry(id, now, args[0].n as int8, args[1].s, args[2].s, args[3].s, args[4].s, args[5].s)
  }

  /** Insert never binds `id` or `created_at`: its arguments do not depend on them. */
  lemma InsertArgsOmitStoreColumns(e: Entry, id: nat, t: Time)
    ensures "id" !in InsertColumns && "created_at" !in InsertColumns
    ensures InsertArgs(e.(id := id, createdAt := t)) == InsertArgs(e)
  {
  }

  /** Inserting an entry stores exactly its six user fields, with the store's id and timestamp. */
  lemma InsertRoundTrip(e: Entry, id: nat, now: Time)
    ensures WellTyped(InsertArgs(e))
    ensures StoredRow(InsertArgs(e), id, now) == e.(id := id, createdAt := now)
  {
  }

  // ---------------------------------------------------------------------------
  // JSON form of an entry
  // ---------------------------------------------------------------------------

  datatype Json = JInt(n: int) | JString(s: string)

  /** The keys of a serialized entry, from the struct's json tags; CreatedAt is tagged "-". */
  const EntryJsonKeys: seq<string> :=
    ["id", "rating", "testimonial", "lastname", "firstname", "occupation", "github"]

  function Keys(obj: seq<(string, Json)>): (ks: seq<string>)
    ensures |ks| == |obj|
    ensures forall i :: 0 <= i < |obj| ==> ks[i] == obj[i].0
  {
    if obj == [] then [] else [obj[0].0] + Keys(obj[1..])
  }

  /** The value stored under the first occurrence of `key`. */
  function Lookup(obj: seq<(string, Json)>, key: string): Option<Json>
  {
    if obj == [] then None
    else if obj[0].0 == key then Some(obj[0].1)
    else Lookup(obj[1..], key)
  }

  /** The JSON object an Entry is encoded as: `id` and the six user fields, no timestamp. */
  function ToJson(e: Entry): (obj: seq<(string, Json)>)
    ensures Keys(obj) == EntryJsonKeys
  {
    [("id", JInt(e.id)), ("rating", JInt(e.rating as int)),
     ("testimonial", JString(e.testimonial)), ("lastname", JString(e.lastName)),
     ("firstname", JString(e.firstName)), ("occupation", JString(e.occupation)),
     ("github", JString(e.github))]
  }

  /**
   * The inverse of ToJson: reads the seven keys ToJson writes, taking the
   * first occurrence of each; CreatedAt gets the zero time.
   */
  function FromJson(obj: seq<(string, Json)>): Option<Entry>
  {
    match (Lookup(obj, "id"), Lookup(obj, "rating"), Lookup(obj, "testimonial"),
           Lookup(obj, "lastname"), Lookup(obj, "firstname"), Lookup(obj, "occupation"),
           Lookup(obj, "github"))
    case (Some(JInt(id)), Some(JInt(rating)), Some(JString(t)), Some(JString(ln)),
          Some(JString(fn)), Some(JString(occ)), Some(JString(gh))) =>
      if 0 <= id && -128 <= rating < 128 then
        Some(Entry(id, ZeroTime, rating as int8, t, ln, fn, occ, gh))
      else None
    case _ => None
  }

  /** Lookup finds the value at the position of a key that occurs only there. */
  lemma {:induction false} LookupAt(obj: seq<(string, Json)>, i: nat)
    requires i < |obj|
    requires forall j :: 0 <= j < i ==> obj[j].0 != obj[i].0
    ensures Lookup(obj, obj[i].0) == Some(obj[i].1)
  {
    if i > 0 {
      LookupAt(obj[1..], i - 1);
    }
  }

  /** The JSON form carries the id and all six user fields: decoding it gives back the entry, minus its timestamp. */
  lemma JsonRoundTrip(e: Entry)
    ensures FromJson(ToJson(e)) == Some(e.(createdAt := ZeroTime))
  {
    var obj := ToJson(e);
    LookupAt(obj, 0); LookupAt(obj, 1); LookupAt(obj, 2); LookupAt(obj, 3);
    LookupAt(obj, 4); LookupAt(obj, 5); LookupAt(obj, 6);
  }

  /** The timestamp never reaches the JSON form. */
  lemma JsonOmitsCreatedAt(e: Entry, t: Time)
    ensures ToJson(e.(createdAt := t)) == ToJson(e)
  {
  }

  // ---------------------------------------------------------------------------
  // The table and its two statements
  // ---------------------------------------------------------------------------

  /**
   * How the database misbehaves during GetAll's SELECT (an input of the model):
   * the query itself fails, the scan of row `row` fails, or the cursor stops
   * after `after` rows and reports `err` from rows.Err().
   */
  datatype ReadFault =
    | NoFault
    | QueryFails(err: string)
    | ScanFails(row: nat, err: string)
    | IterationFails(after: nat, err: string)

  /** Whether the fault makes GetAll fail on a table of `n` rows (a scan fault past the last row never fires). */
  predicate FaultFires(fault: ReadFault, n: nat)
  {
    match fault
    case NoFault => false
    case QueryFails(_) => true
    case ScanFails(row, _) => row < n
    case IterationFails(_, _) => true
  }

  /** How many rows the cursor yields for a table of `n` rows. */
  function Yielded(fault: ReadFault, n: nat): (k: nat)
    ensures k <= n
  {
    match fault
    case QueryFails(_) => 0
    case IterationFails(after, _) => if after < n then after else n
    case _ => n
  }

  /**
   * EntryModel over the `entries` table: `rows` is the table in the order the
   * store yields it, `nextId` a lower bound for the
   * next value of the id sequence.
   */
  class EntryModel {
    var rows: seq<Entry>
    var nextId: nat

    /** Ids are assigned by the store, strictly increasing and below `nextId`. */
    ghost predicate Valid()
      reads this
    {
      (forall i, j :: 0 <= i < j < |rows| ==> rows[i].id < rows[j].id) &&
      (forall i :: 0 <= i < |rows| ==> rows[i].id < nextId)
    }

    constructor ()
      ensures Valid() && rows == [] && nextId == 1
    {
      rows := [];
      nextId := 1;
    }

    /**
     * INSERT of the six user fields.  `execErr` is the driver's outcome of
     * executing the statement; `id` is the value the store's id sequence hands
     * out for it and `now` the time the store stamps the row with.  The
     * sequence only moves forward, but a failed statement may still have used
     * up values, so `id` is any value from `nextId` on.  The statement's error
     * is returned as is; on success one row is appended.
     */
    method Insert(entry: Entry, execErr: Option<string>, id: nat, now: Time) returns (err: Option<Error>)
      requires Valid()
      requires id >= nextId
      modifies this
      ensures Valid()
      ensures err == if execErr.Some? then Some(Driver(execErr.value)) else None
      ensures rows == if execErr.Some? then old(rows)
                      else old(rows) + [entry.(id := id, createdAt := now)]
      ensures nextId == if execErr.Some? then old(nextId) else id + 1
    {
      var args := InsertArgs(entry);
      if execErr.Some? {
        return Some(Driver(execErr.value));
      }
      InsertRoundTrip(entry, id, now);
      rows := rows + [StoredRow(args, id, now)];
      nextId := id + 1;
      err := None;
    }

    /**
     * SELECT of every column, scanned row by row into a fresh slice.  Any
     * error discards the slice: the result is then nil (None).  With no error
     * the result is the whole table in store order, an empty but non-nil
     * slice (Some([])) when the table is empty.
     */
    method GetAll(fault: ReadFault) returns (entries: Option<seq<Entry>>, err: Option<Error>)
      ensures err.None? <==> !FaultFires(fault, |rows|)
      ensures err.Some? ==> entries.None? && err == Some(Driver(fault.err))
      ensures err.None? ==> entries == Some(rows)
    {
      if fault.QueryFails? {
        return None, Some(Driver(fault.err));
      }
      var n := Yielded(fault, |rows|);
      var acc: seq<Entry> := [];
      var i := 0;
      while i < n
        invariant 0 <= i <= n
        invariant acc == rows[..i]
        invariant fault.ScanFails? ==> i <= fault.row
      {
        if fault.ScanFails? && fault.row == i {
          return None, Some(Driver(fault.err));
        }
        acc := acc + [rows[i]];
        i := i + 1;
      }
      if fault.IterationFails? {
        return None, Some(Driver(fault.err));
      }
      assert acc == rows by { assert rows[..|rows|] == rows; }
      entries, err := Some(acc), None;
    }
  }
}
