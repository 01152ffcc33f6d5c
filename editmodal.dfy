/**
 * The record editor: the list of distinct investor types offered in its
 * type selector, the form state it keeps while open, the switch between a
 * selected and a custom type, and the record it hands back on save.
 */
module EditModal {
  import opened Wrappers
  import opened Values
  import opened ExcelParser

  // ---------------------------------------------------------------------
  // The default order of `Array.prototype.sort` on strings.

  /** `a <= b` in code-unit order: `a` is a prefix of `b`, or smaller at the first difference. */
  predicate TextLe(a: string, b: string) {
    a == [] || (b != [] && (a[0] < b[0] || (a[0] == b[0] && TextLe(a[1..], b[1..]))))
  }

  lemma {:induction false} TextLeTotal(a: string, b: string)
    ensures TextLe(a, b) || TextLe(b, a)
  {
    if a != [] && b != [] && a[0] == b[0] {
      TextLeTotal(a[1..], b[1..]);
    }
  }

  lemma {:induction false} TextLeTrans(a: string, b: string, c: string)
    requires TextLe(a, b) && TextLe(b, c)
    ensures TextLe(a, c)
  {
    if a != [] && b != [] && c != [] && a[0] == b[0] && b[0] == c[0] {
      TextLeTrans(a[1..], b[1..], c[1..]);
    }
  }

  /** Non-decreasing in that order. */
  predicate SortedText(s: seq<string>) {
    forall i, j :: 0 <= i < j < |s| ==> TextLe(s[i], s[j])
  }

  /** No string appears twice. */
  predicate DistinctText(s: seq<string>) {
    forall i, j :: 0 <= i < j < |s| ==> s[i] != s[j]
  }

  function InsertText(x: string, s: seq<string>): seq<string> {
    if s == [] then [x]
    else if TextLe(x, s[0]) then [x] + s
    else [s[0]] + InsertText(x, s[1..])
  }

  /** `sort()` on a list of strings. */
  function SortText(s: seq<string>): seq<string> {
    if s == [] then [] else InsertText(s[0], SortText(s[1..]))
  }

  lemma {:induction false} InsertTextMembers(x: string, s: seq<string>)
    ensures multiset(InsertText(x, s)) == multiset(s) + multiset{x}
    ensures forall y :: y in InsertText(x, s) <==> y == x || y in s
  {
    if s != [] && !TextLe(x, s[0]) {
      InsertTextMembers(x, s[1..]);
      assert s == [s[0]] + s[1..];
    }
  }

  /** A sorted list with a lower bound put in front stays sorted. */
  lemma ConsSorted(y: string, t: seq<string>)
    requires SortedText(t)
    requires forall j :: 0 <= j < |t| ==> TextLe(y, t[j])
    ensures SortedText([y] + t)
  {
    var r := [y] + t;
    forall i, j | 0 <= i < j < |r|
      ensures TextLe(r[i], r[j])
    {
      assert r[j] == t[j - 1];
      if i > 0 {
        assert r[i] == t[i - 1];
      }
    }
  }

  lemma {:induction false} InsertTextSorted(x: string, s: seq<string>)
    requires SortedText(s)
    ensures SortedText(InsertText(x, s))
  {
    if s == [] {
    } else if TextLe(x, s[0]) {
      forall j | 0 <= j < |s|
        ensures TextLe(x, s[j])
      {
        if j > 0 {
          TextLeTrans(x, s[0], s[j]);
        }
      }
      ConsSorted(x, s);
    } else {
      TextLeTotal(x, s[0]);
      var t := InsertText(x, s[1..]);
      assert SortedText(s[1..]);
      InsertTextSorted(x, s[1..]);
      InsertTextMembers(x, s[1..]);
      forall j | 0 <= j < |t|
        ensures TextLe(s[0], t[j])
      {
        assert t[j] in t;
        if t[j] != x {
          var k :| 0 <= k < |s[1..]| && s[1..][k] == t[j];
          assert s[k + 1] == t[j];
        }
      }
      ConsSorted(s[0], t);
    }
  }

  /** The sort gives a sorted permutation of its input. */
  lemma {:induction false} SortTextSpec(s: seq<string>)
    ensures SortedText(SortText(s))
    ensures multiset(SortText(s)) == multiset(s)
    ensures forall y :: y in SortText(s) <==> y in s
  {
    if s != [] {
      SortTextSpec(s[1..]);
      InsertTextSorted(s[0], SortText(s[1..]));
      InsertTextMembers(s[0], SortText(s[1..]));
      assert s == [s[0]] + s[1..];
    }
  }

  lemma {:induction false} DistinctCount(b: seq<string>, x: string)
    requires DistinctText(b)
    ensures multiset(b)[x] <= 1
  {
    if b != [] {
      assert b == [b[0]] + b[1..];
      assert DistinctText(b[1..]);
      DistinctCount(b[1..], x);
      if x == b[0] {
        assert x !in b[1..];
      }
    }
  }

  /** A permutation of a list without repeats has none either. */
  lemma PermutationDistinct(a: seq<string>, b: seq<string>)
    requires multiset(a) == multiset(b) && DistinctText(b)
    ensures DistinctText(a)
  {
    forall i, j | 0 <= i < j < |a|
      ensures a[i] != a[j]
    {
      if a[i] == a[j] {
        assert a == a[..i] + [a[i]] + a[i + 1..j] + [a[j]] + a[j + 1..];
        assert multiset(a)[a[i]] >= 2;
        DistinctCount(b, a[i]);
      }
    }
  }

  // ---------------------------------------------------------------------
  // The distinct types.

  /** `inv.type && inv.type.trim() !== ""` throws on a truthy non-string type. */
  predicate TrimThrows(inv: Investor) {
    Truthy(inv.kind) && !inv.kind.JStr?
  }

  /** The type is a non-blank string. */
  predicate ListedType(inv: Investor, t: string) {
    inv.kind == JStr(t) && !Blank(t)
  }

  /**
   * `getDistinctTypes`: the non-blank types in a set, then sorted. A
   * truthy type that is not a string makes `trim` throw (None).
   */
  method DistinctTypes(investors: seq<Investor>) returns (r: Option<seq<string>>)
    ensures |investors| == 0 ==> r == Some([])
    ensures r.None? <==> exists i :: 0 <= i < |investors| && TrimThrows(investors[i])
    ensures r.Some? ==> SortedText(r.value) && DistinctText(r.value)
    ensures r.Some? ==> forall t :: t in r.value <==> exists i :: 0 <= i < |investors| && ListedType(investors[i], t)
  {
    if |investors| == 0 {
      return Some([]);
    }
    var types: seq<string> := [];
    for i := 0 to |investors|
      invariant forall j :: 0 <= j < i ==> !TrimThrows(investors[j])
      invariant DistinctText(types)
      invariant forall t :: t in types <==> exists j :: 0 <= j < i && ListedType(investors[j], t)
    {
      var kind := investors[i].kind;
      if Truthy(kind) {
        if !kind.JStr? {
          return None;
        }
        if !Blank(kind.s) && kind.s !in types {
          types := types + [kind.s];
        }
      }
    }
    var sorted := SortText(types);
    SortTextSpec(types);
    PermutationDistinct(sorted, types);
    return Some(sorted);
  }

  // ---------------------------------------------------------------------
  // The form.

  /** The text inputs of the form. */
  datatype TextInput = NameInput | DescriptionInput | MinInput | MaxInput | CustomTypeInput | EmailInput | LinkedinInput

  /** The value the selector entry "ALTRO" stands for: type a custom type. */
  const CUSTOM_TYPE_ENTRY := "ALTRO"

  /** `x?.toString() || ""` for an amount. */
  function AmountText(a: Option<Num>): (t: string)
    ensures a.None? <==> t == ""
  {
    match a
    case None => ""
    case Some(n) => NumToString(n)
  }

  /** `text ? Number(text) : undefined`. */
  function AmountOf(text: string, numberOf: Json -> Num): (a: Option<Num>)
    ensures text == "" <==> a.None?
    ensures text != "" ==> a == Some(numberOf(JStr(text)))
  {
    if text == "" then None else Some(ToNumber(JStr(text), numberOf))
  }

  /** The editor's state while open. */
  class EditForm {
    var name: Json
    var kind: Json
    var description: Json
    var status: Json
    var investmentMin: string
    var investmentMax: string
    var isCustomType: bool
    var customType: string
    var email: Json
    var linkedin: Json

    /** The initial state: empty inputs, no status, selected-type mode. */
    constructor()
      ensures name == JStr("") && kind == JStr("") && description == JStr("") && status == JNull
      ensures investmentMin == "" && investmentMax == "" && !isCustomType && customType == ""
      ensures email == JStr("") && linkedin == JStr("")
    {
      name, kind, description, status := JStr(""), JStr(""), JStr(""), JNull;
      investmentMin, investmentMax, isCustomType, customType := "", "", false, "";
      email, linkedin := JStr(""), JStr("");
    }

    /**
     * The effect run when the record to edit changes: the form is filled
     * from the record, with "" for falsy text and amounts, and leaves
     * custom-type mode. With no record nothing changes.
     */
    method Load(investor: Option<Investor>)
      modifies this
      ensures investor.None? ==> unchanged(this)
      ensures investor.Some? ==>
        var inv := investor.value;
        && name == inv.name && kind == Or(Some(inv.kind), JStr("")) && description == Or(Some(inv.description), JStr(""))
        && status == inv.status && investmentMin == AmountText(inv.investmentMin)
        && investmentMax == AmountText(inv.investmentMax) && !isCustomType && customType == ""
        && email == Or(Some(inv.email), JStr("")) && linkedin == Or(Some(inv.linkedin), JStr(""))
    {
      if investor.Some? {
        var inv := investor.value;
        name, kind, description, status := inv.name, Or(Some(inv.kind), JStr("")), Or(Some(inv.description), JStr("")), inv.status;
        investmentMin, investmentMax := AmountText(inv.investmentMin), AmountText(inv.investmentMax);
        isCustomType, customType := false, "";
        email, linkedin := Or(Some(inv.email), JStr("")), Or(Some(inv.linkedin), JStr(""));
      }
    }

    /** Typing into one of the text inputs. */
    method EditText(input: TextInput, text: string)
      modifies this
      ensures input == NameInput ==> name == JStr(text)
      ensures input == DescriptionInput ==> description == JStr(text)
      ensures input == MinInput ==> investmentMin == text
      ensures input == MaxInput ==> investmentMax == text
      ensures input == CustomTypeInput ==> customType == text
      ensures input == EmailInput ==> email == JStr(text)
      ensures input == LinkedinInput ==> linkedin == JStr(text)
      ensures kind == old(kind) && status == old(status) && isCustomType == old(isCustomType)
      ensures input != NameInput ==> name == old(name)
      ensures input != DescriptionInput ==> description == old(description)
      ensures input != MinInput ==> investmentMin == old(investmentMin)
      ensures input != MaxInput ==> investmentMax == old(investmentMax)
      ensures input != CustomTypeInput ==> customType == old(customType)
      ensures input != EmailInput ==> email == old(email)
      ensures input != LinkedinInput ==> linkedin == old(linkedin)
    {
      match input
      case NameInput => name := JStr(text);
      case DescriptionInput => description := JStr(text);
      case MinInput => investmentMin := text;
      case MaxInput => investmentMax := text;
      case CustomTypeInput => customType := text;
      case EmailInput => email := JStr(text);
      case LinkedinInput => linkedin := JStr(text);
    }

    /** Choosing a status in the selector. */
    method SelectStatus(s: string)
      modifies this
      ensures status == JStr(s)
      ensures name == old(name) && kind == old(kind) && description == old(description)
      ensures investmentMin == old(investmentMin) && investmentMax == old(investmentMax)
      ensures isCustomType == old(isCustomType) && customType == old(customType)
      ensures email == old(email) && linkedin == old(linkedin)
    {
      status := JStr(s);
    }

    /** `handleTypeChange`: "ALTRO" enters custom mode and keeps the type; any other entry selects it. */
    method HandleTypeChange(value: string)
      modifies this
      ensures value == CUSTOM_TYPE_ENTRY ==> isCustomType && kind == old(kind)
      ensures value != CUSTOM_TYPE_ENTRY ==> !isCustomType && kind == JStr(value)
      ensures name == old(name) && description == old(description) && status == old(status)
      ensures investmentMin == old(investmentMin) && investmentMax == old(investmentMax)
      ensures customType == old(customType) && email == old(email) && linkedin == old(linkedin)
    {
      if value == CUSTOM_TYPE_ENTRY {
        isCustomType := true;
      } else {
        isCustomType := false;
        kind := JStr(value);
      }
    }

    /** `handleCustomTypeSave`: a non-blank custom type becomes the type and custom mode ends; otherwise nothing changes. */
    method HandleCustomTypeSave()
      modifies this
      ensures !Blank(old(customType)) ==> kind == JStr(old(customType)) && !isCustomType
      ensures Blank(old(customType)) ==> kind == old(kind) && isCustomType == old(isCustomType)
      ensures name == old(name) && description == old(description) && status == old(status)
      ensures investmentMin == old(investmentMin) && investmentMax == old(investmentMax)
      ensures customType == old(customType) && email == old(email) && linkedin == old(linkedin)
    {
      if customType != "" && !Blank(customType) {
        kind := JStr(customType);
        isCustomType := false;
      }
    }

    /**
     * The record `handleSave` builds: the edited record with the form's
     * fields over it. Its id, creation time and every other field it does
     * not set are the record's.
     */
    function Updated(investor: Investor, numberOf: Json -> Num): (r: Investor)
      reads this
      ensures r.id == investor.id && r.createdAt == investor.createdAt
      ensures r.name == name
      ensures r.kind == if isCustomType then JStr(customType) else kind
      ensures r.status == if Truthy(status) then status else investor.status
      ensures r.investmentMin == AmountOf(investmentMin, numberOf)
      ensures r.investmentMax == AmountOf(investmentMax, numberOf)
      ensures r.description == Or(Some(description), JStr(""))
      ensures r.email == Or(Some(email), JStr("")) && r.linkedin == Or(Some(linkedin), JStr(""))
    {
      investor.(name := name,
                kind := if isCustomType then JStr(customType) else kind,
                description := Or(Some(description), JStr("")),
                status := Or(Some(status), investor.status),
                investmentMin := AmountOf(investmentMin, numberOf),
                investmentMax := AmountOf(investmentMax, numberOf),
                email := Or(Some(email), JStr("")),
                linkedin := Or(Some(linkedin), JStr("")))
    }

    /** `handleSave`: nothing without a record; otherwise the updated record is handed to the caller. */
    method HandleSave(investor: Option<Investor>, numberOf: Json -> Num) returns (saved: Option<Investor>)
      ensures investor.None? ==> saved.None?
      ensures investor.Some? ==> saved == Some(Updated(investor.value, numberOf))
    {
      if investor.None? {
        return None;
      }
      saved := Some(Updated(investor.value, numberOf));
    }
  }

  /**
   * Opening the editor on a record and saving it without edits gives the
   * record back when its text fields are strings and the number parser
   * reads its printed amounts back.
   */
  method UneditedSaveKeepsRecord(inv: Investor, numberOf: Json -> Num) returns (saved: Option<Investor>)
    requires inv.kind.JStr? && inv.description.JStr? && inv.email.JStr? && inv.linkedin.JStr?
    requires inv.investmentMin.Some? ==> numberOf(JStr(NumToString(inv.investmentMin.value))) == inv.investmentMin.value
    requires inv.investmentMax.Some? ==> numberOf(JStr(NumToString(inv.investmentMax.value))) == inv.investmentMax.value
    ensures saved == Some(inv)
  {
    var form := new EditForm();
    form.Load(Some(inv));
    saved := form.HandleSave(Some(inv), numberOf);
  }

  /** Choosing "ALTRO", typing a blank custom type and confirming it keeps the previous type and stays in custom mode. */
  method BlankCustomTypeIgnored(inv: Investor, blank: string) returns (kind: Json, custom: bool)
    requires Blank(blank)
    ensures kind == Or(Some(inv.kind), JStr("")) && custom
  {
    var form := new EditForm();
    form.Load(Some(inv));
    form.HandleTypeChange(CUSTOM_TYPE_ENTRY);
    form.EditText(CustomTypeInput, blank);
    form.HandleCustomTypeSave();
    kind, custom := form.kind, form.isCustomType;
  }
}
