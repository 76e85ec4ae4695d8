/**
 * The one record of the CSV parser that the analytics consume. Reading and
 * decoding the export is not part of this model.
 */
module Parser {

  /**
   * One diary entry. `day` is the calendar date as a day number, `minute` the
   * time of day in minutes since midnight, `level` the level of the entry's
   * configured mood (1..5 for a valid configuration), `activities` the tags in
   * the order they were written.
   */
  datatype Entry = Entry(day: int, minute: int, level: int, activities: seq<string>)
}
