/** The `house.location.tag` model: a named reference entity whose create
    refuses a name that an existing tag already has (exact,
    case-sensitive match). */
module HouseLocationTag {
  import opened Common
  import opened Records

  /** The `house.location.tag` table: the `name` column, a record's id
      being its position. */
  class TagTable {
    var names: seq<string>

    constructor ()
      ensures names == []
    {
      names := [];
    }

    /** `create`: counts the tags carrying the name and raises a
        ValidationError when there is one; otherwise inserts exactly one row
        with the name. Duplicate-free names stay duplicate-free. */
    method Create(name: string) returns (r: Result<RecordId>)
      modifies this
      ensures r.Err? <==> name in old(names)
      ensures r.Err? ==> r.error == ValidationError && names == old(names)
      ensures r.Ok? ==> r.value == |old(names)| && names == old(names) + [name]
      ensures Distinct(old(names)) ==> Distinct(names)
    {
      var count := Occurrences(names, name);
      OccurrencesZero(names, name);
      if count > 0 {
        return Err(ValidationError);
      }
      if Distinct(names) {
        InsertKeepsDistinct(names, name);
      }
      r := Ok(|names|);
      names := names + [name];
    }
  }
}
