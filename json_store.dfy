/**
 * The JSON document store of lines 6-24 and 113-118: `data/schools.json` holds an array of
 * school records; a create reads the whole array, gives the new record the next id, appends it
 * and writes the whole array back.
 */
module JsonStore {
  import opened Wrappers
  import opened Fields

  /**
   * A stored record. Records written by the route always carry an id; records already in the
   * file may lack one, which is why `id` is optional. `contact` stands for the converted number.
   */
  datatype School = School(
    id: Option<int>, name: string, address: string, city: string, state: string,
    contact: Option<string>, image: Option<string>, emailId: string)

  /** The id a record contributes to the maximum: a missing id counts as 0. */
  function IdValue(s: School): int {
    s.id.GetOr(0)
  }

  /** The largest id of a non-empty array, a missing id counted as 0 (line 114). */
  function MaxId(schools: seq<School>): (m: int)
    requires |schools| > 0
    ensures forall i | 0 <= i < |schools| :: IdValue(schools[i]) <= m
    ensures exists i | 0 <= i < |schools| :: IdValue(schools[i]) == m
  {
    if |schools| == 1 then IdValue(schools[0])
    else
      var rest := MaxId(schools[..|schools| - 1]);
      var last := IdValue(schools[|schools| - 1]);
      if rest < last then last else rest
  }

  /**
   * Line 114: `1` for an empty array, else one more than the largest id. The id is above every
   * existing id, and no larger than it needs to be.
   */
  function NextId(schools: seq<School>): (r: int)
    ensures forall i | 0 <= i < |schools| :: IdValue(schools[i]) < r
    ensures |schools| == 0 ==> r == 1
    ensures |schools| > 0 ==> exists i | 0 <= i < |schools| :: r == IdValue(schools[i]) + 1
  {
    if |schools| > 0 then MaxId(schools) + 1 else 1
  }

  /** The normalised values a stored record carries, without its id and image. */
  function FieldsOf(s: School): SchoolFields {
    SchoolFields(s.name, s.address, s.city, s.state, s.contact, s.emailId)
  }

  /**
   * Line 115: the record the route builds from the normalised fields. It carries the given id,
   * and reading its values back gives the submission and the image path unchanged.
   */
  function NewSchool(id: int, f: SchoolFields, image: Option<string>): (r: School)
    ensures r.id == Some(id) && IdValue(r) == id
    ensures FieldsOf(r) == f && r.image == image
  {
    School(Some(id), f.name, f.address, f.city, f.state, f.contact, image, f.emailId)
  }

  /** Lines 114-116: the array after the new record has been pushed. */
  function Created(schools: seq<School>, f: SchoolFields, image: Option<string>): (r: seq<School>)
    ensures |r| == |schools| + 1 && r[..|schools|] == schools
    ensures r[|schools|] == NewSchool(NextId(schools), f, image)
  {
    schools + [NewSchool(NextId(schools), f, image)]
  }

  /** The new id differs from every id already present. */
  lemma NextIdIsFresh(schools: seq<School>)
    ensures forall i | 0 <= i < |schools| :: schools[i].id != Some(NextId(schools))
  {
    forall i | 0 <= i < |schools| ensures schools[i].id != Some(NextId(schools)) {
      assert IdValue(schools[i]) < NextId(schools);
    }
  }

  /** Ids that grow along the array (so they are all distinct). */
  ghost predicate IdsIncreasing(schools: seq<School>) {
    forall i, j | 0 <= i < j < |schools| :: IdValue(schools[i]) < IdValue(schools[j])
  }

  /** Creating keeps the ids increasing in stored order. */
  lemma CreatedKeepsIdsIncreasing(schools: seq<School>, f: SchoolFields, image: Option<string>)
    requires IdsIncreasing(schools)
    ensures IdsIncreasing(Created(schools, f, image))
  {
    var r := Created(schools, f, image);
    forall i, j | 0 <= i < j < |r| ensures IdValue(r[i]) < IdValue(r[j]) {
      assert r[i] == schools[i];
      if j < |schools| { assert r[j] == schools[j]; }
    }
  }

  /** The ids are exactly 1, 2, ..., n in stored order. */
  ghost predicate NumberedFromOne(schools: seq<School>) {
    forall i | 0 <= i < |schools| :: schools[i].id == Some(i + 1)
  }

  /** When the ids are 1..n, the next one is n + 1. */
  lemma {:induction false} NextIdAfterNumbered(schools: seq<School>)
    requires NumberedFromOne(schools)
    ensures NextId(schools) == |schools| + 1
  {
    if |schools| > 0 {
      var i :| 0 <= i < |schools| && NextId(schools) == IdValue(schools[i]) + 1;
      assert IdValue(schools[i]) == i + 1;
      assert IdValue(schools[|schools| - 1]) == |schools|;
    }
  }

  /** A sequence of creates, one after the other. */
  function CreateAll(schools: seq<School>, batch: seq<(SchoolFields, Option<string>)>): seq<School>
    decreases |batch|
  {
    if batch == [] then schools
    else CreateAll(Created(schools, batch[0].0, batch[0].1), batch[1..])
  }

  /**
   * Creates that run one after another on a file whose records are numbered 1..n leave them
   * numbered 1..n+N, with no gap and no repeat; from an empty file that is 1..N.
   */
  lemma {:induction false} CreateAllNumbersConsecutively(schools: seq<School>, batch: seq<(SchoolFields, Option<string>)>)
    requires NumberedFromOne(schools)
    ensures |CreateAll(schools, batch)| == |schools| + |batch|
    ensures NumberedFromOne(CreateAll(schools, batch))
    decreases |batch|
  {
    if batch != [] {
      var next := Created(schools, batch[0].0, batch[0].1);
      NextIdAfterNumbered(schools);
      assert NumberedFromOne(next) by {
        forall i | 0 <= i < |next| ensures next[i].id == Some(i + 1) {
          if i < |schools| { assert next[i] == schools[i]; }
        }
      }
      CreateAllNumbersConsecutively(next, batch[1..]);
    }
  }

  /** What `data/schools.json` holds: nothing yet, text that does not parse, or an array. */
  datatype FileState = Missing | Unreadable | Holds(schools: seq<School>)

  /**
   * The JSON file. `writable` stands for the file system accepting the store's `mkdirSync` and
   * `writeFileSync` calls.
   */
  class FileStore {
    var file: FileState
    const writable: bool

    constructor (file: FileState, writable: bool)
      ensures this.file == file && this.writable == writable
    {
      this.file := file;
      this.writable := writable;
    }

    /** What `readJsonSchools` returns once the file exists: its array, or `[]` when it does not parse. */
    function Contents(): seq<School>
      reads this
    {
      if file.Holds? then file.schools else []
    }

    /** Lines 7-11: create the file holding `[]` when it is missing; this throws when writes fail. */
    method EnsureJsonStore() returns (ok: bool)
      modifies this
      ensures ok <==> old(file) != Missing || writable
      ensures file == if old(file) == Missing && writable then Holds([]) else old(file)
    {
      if file == Missing {
        if !writable {
          return false;
        }
        file := Holds([]);
      }
      return true;
    }

    /** Lines 12-20: the stored array, with an unreadable or unparseable file read as `[]`. */
    method ReadJsonSchools() returns (r: Option<seq<School>>)
      modifies this
      ensures r.None? <==> old(file) == Missing && !writable
      ensures r.Some? ==> r.value == old(Contents())
      ensures file == if old(file) == Missing && writable then Holds([]) else old(file)
    {
      var ok := EnsureJsonStore();
      if !ok {
        return None;
      }
      return Some(Contents());
    }

    /** Lines 21-24: replace the whole file with `schools`. */
    method WriteJsonSchools(schools: seq<School>) returns (ok: bool)
      modifies this
      ensures ok <==> writable
      ensures file == if writable then Holds(schools) else old(file)
    {
      var ready := EnsureJsonStore();
      if !ready || !writable {
        return false;
      }
      file := Holds(schools);
      return true;
    }

    /**
     * Lines 113-118: read, number, push, rewrite. On success the file holds the old array with
     * exactly one record more, at the end; when a write fails the file is as it was.
     */
    method Create(f: SchoolFields, image: Option<string>) returns (id: Option<int>)
      modifies this
      ensures id.Some? <==> writable
      ensures writable ==> id == Some(NextId(old(Contents())))
      ensures writable ==> file == Holds(Created(old(Contents()), f, image))
      ensures !writable ==> file == old(file)
    {
      var read := ReadJsonSchools();
      if read.None? {
        return None;
      }
      var schools := read.value;
      var newId := NextId(schools);
      schools := schools + [NewSchool(newId, f, image)];
      var ok := WriteJsonSchools(schools);
      if !ok {
        return None;
      }
      return Some(newId);
    }
  }
}
