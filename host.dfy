/**
 * What the ledger code obtains from its host and libraries, passed in as values: the
 * clock, the identifier generator, number and date formatting of the JavaScript runtime,
 * the spreadsheet library's serial-date decoder and case mapping.
 */
module Host {
  import opened Wrappers

  /** A calendar date as the date libraries report it (month and day counted from 1). */
  datatype CalendarDate = CalendarDate(year: nat, month: nat, day: nat)

  datatype Env = Env(
    /** `new Date().toISOString().split('T')[0]`: today's date as `yyyy-mm-dd`. */
    today: string,
    /** `new Date().getFullYear()`. */
    currentYear: int,
    /** `new Date().toISOString()`. */
    uploadedAt: string,
    /** The identifier `uuidv4()` yields for the n-th transaction a parser emits. */
    newId: nat -> string,
    /** `String(x)` for a number taken from a spreadsheet cell. */
    numberToString: real -> string,
    /** `String(d)` for a date taken from a spreadsheet cell. */
    dateToString: CalendarDate -> string,
    /** `XLSX.SSF.parse_date_code(x)`: the date of a spreadsheet serial number, if any. */
    parseDateCode: real -> Option<CalendarDate>,
    /** `s.toUpperCase()`. */
    upper: string -> string,
    /** `s.toLowerCase()`. */
    lower: string -> string
  )
}
