/**
 * The investor record and the mapping of spreadsheet rows to records
 * performed when a workbook is imported.
 */
module ExcelParser {
  import opened Wrappers
  import opened Values
  import KanbanConstants

  /**
   * An investor record. The fields the program declares as strings hold
   * whatever value was stored in them (loaded or imported data may carry a
   * non-string there, which the validators reject); `kind` is the field
   * called `type`. The two investment bounds are a number or undefined.
   */
  datatype Investor = Investor(
    id: Json,
    name: Json,
    kind: Json,
    description: Json,
    status: Json,
    investmentMin: Option<Num>,
    investmentMax: Option<Num>,
    createdAt: Json,
    email: Json,
    linkedin: Json)

  /** The `InvestorStatus` union type. */
  predicate IsInvestorStatus(s: string) {
    s == "Da contattare" || s == "Contattati" || s == "Interessati"
    || s == "Negoziazione" || s == "A bordo!" || s == "Drop definitivo"
  }

  /** The union type and the status table name the same six values. */
  lemma StatusUnionIsTable(s: string)
    ensures IsInvestorStatus(s) <==> s in KanbanConstants.INVESTOR_STATUSES
  {
  }

  /** One spreadsheet row: column header to cell value; an empty cell is absent. */
  type Row = map<string, Json>

  function Cell(row: Row, header: string): Option<Json> {
    if header in row then Some(row[header]) else None
  }

  /** `cell ? Number(cell) : undefined`. */
  function AmountCell(row: Row, header: string, numberOf: Json -> Num): Option<Num> {
    var c := Cell(row, header);
    if Present(c) then Some(ToNumber(c.value, numberOf)) else None
  }

  /** The record built from the row at `index`, with the clock readings taken for it. */
  function RowToInvestor(row: Row, index: nat, ts: nat, now: string, numberOf: Json -> Num): Investor {
    Investor(
      id := JStr(GeneratedId(ts, index)),
      name := Or(Cell(row, "Investitore"), JStr("Senza nome")),
      kind := Or(Cell(row, "Tipologia"), JStr("")),
      description := Or(Cell(row, "Descrizione / Operazione"), JStr("")),
      status := JStr(KanbanConstants.DEFAULT_STATUS),
      investmentMin := AmountCell(row, "Investimento Min", numberOf),
      investmentMax := AmountCell(row, "Investimento Max", numberOf),
      createdAt := JStr(now),
      email := Or(Cell(row, "Email"), JStr("")),
      linkedin := Or(Cell(row, "LinkedIn"), JStr("")))
  }

  /**
   * The records imported from the rows of the first sheet. `clock(i)` and
   * `now(i)` are the values of `Date.now()` and of the ISO timestamp read
   * while row `i` is mapped.
   */
  function ParseRows(rows: seq<Row>, clock: nat -> nat, now: nat -> string, numberOf: Json -> Num): (r: seq<Investor>)
    ensures |r| == |rows|
    ensures forall i :: 0 <= i < |r| ==>
      && r[i].id == JStr(GeneratedId(clock(i), i))
      && r[i].status == JStr(KanbanConstants.DEFAULT_STATUS)
      && r[i].createdAt == JStr(now(i))
      && r[i].name == (if Present(Cell(rows[i], "Investitore")) then rows[i]["Investitore"] else JStr("Senza nome"))
      && r[i].kind == Or(Cell(rows[i], "Tipologia"), JStr(""))
      && r[i].description == Or(Cell(rows[i], "Descrizione / Operazione"), JStr(""))
      && r[i].email == Or(Cell(rows[i], "Email"), JStr(""))
      && r[i].linkedin == Or(Cell(rows[i], "LinkedIn"), JStr(""))
      && (r[i].investmentMin.None? <==> !Present(Cell(rows[i], "Investimento Min")))
      && (r[i].investmentMax.None? <==> !Present(Cell(rows[i], "Investimento Max")))
      && (r[i].investmentMin.Some? ==> r[i].investmentMin.value == ToNumber(rows[i]["Investimento Min"], numberOf))
      && (r[i].investmentMax.Some? ==> r[i].investmentMax.value == ToNumber(rows[i]["Investimento Max"], numberOf))
  {
    seq(|rows|, i requires 0 <= i < |rows| => RowToInvestor(rows[i], i, clock(i), now(i), numberOf))
  }

  /** The records of one import have pairwise different identifiers. */
  lemma ImportIdsDistinct(rows: seq<Row>, clock: nat -> nat, now: nat -> string, numberOf: Json -> Num, i: nat, j: nat)
    requires i < j < |rows|
    ensures ParseRows(rows, clock, now, numberOf)[i].id != ParseRows(rows, clock, now, numberOf)[j].id
  {
    var r := ParseRows(rows, clock, now, numberOf);
    if r[i].id == r[j].id {
      GeneratedIdIndex(clock(i), i, clock(j), j);
    }
  }
}
