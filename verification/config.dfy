/**
 The schema registry of the transaction pipeline: the columns a transaction
 file is expected to carry, the values accepted for payment status and
 payment method, the reconciliation tolerance, the date format, and the closed
 set of error kinds with their stable string codes.

 Everything here is immutable; the two membership predicates are total and
 compare strings exactly (no trimming, no case folding).
 */
module Config {
  import opened Wrappers
  import opened Seqs

  // ---------------------------------------------------------------------------
  // Columns
  // ---------------------------------------------------------------------------

  /** Columns every transaction row must carry, in declared order. */
  const RequiredColumns: seq<string> := [
    "job_id",
    "date",
    "client_name",
    "service_type",
    "labor_amount",
    "total_amount",
    "payment_status"
  ]

  /** Columns a transaction row may carry, in declared order. */
  const OptionalColumns: seq<string> := [
    "materials_amount",
    "tax_amount",
    "payment_method",
    "source",
    "notes"
  ]

  /** The full header: required columns followed by optional ones. */
  const ExpectedColumns: seq<string> := RequiredColumns + OptionalColumns

  const ExpectedColumnCount: nat := |ExpectedColumns|

  /** The expected header keeps both lists whole and in order, and its length
      is the sum of theirs: seven required plus five optional columns. */
  lemma ExpectedColumnsLayout()
    ensures |RequiredColumns| == 7 && |OptionalColumns| == 5
    ensures ExpectedColumns[..|RequiredColumns|] == RequiredColumns
    ensures ExpectedColumns[|RequiredColumns|..] == OptionalColumns
    ensures ExpectedColumnCount == |RequiredColumns| + |OptionalColumns| == 12
  {
  }

  /** No column name is declared both required and optional, and neither list
      repeats a name. */
  lemma ColumnListsDisjoint()
    ensures Distinct(RequiredColumns) && Distinct(OptionalColumns)
    ensures Disjoint(RequiredColumns, OptionalColumns)
  {
  }

  /** The expected header names every column exactly once. */
  lemma ExpectedColumnsDistinct()
    ensures Distinct(ExpectedColumns)
  {
  }

  /** A name is an expected column exactly when it is required or optional,
      and it is never both. */
  lemma ColumnClassification(name: string)
    ensures name in ExpectedColumns <==> name in RequiredColumns || name in OptionalColumns
    ensures !(name in RequiredColumns && name in OptionalColumns)
  {
  }

  /** The amount columns: labour and total are required, materials and tax
      are optional. */
  lemma AmountColumnRoles()
    ensures "labor_amount" in RequiredColumns && "total_amount" in RequiredColumns
    ensures "materials_amount" in OptionalColumns && "tax_amount" in OptionalColumns
    ensures "labor_amount" !in OptionalColumns && "total_amount" !in OptionalColumns
    ensures "materials_amount" !in RequiredColumns && "tax_amount" !in RequiredColumns
  {
  }

  // ---------------------------------------------------------------------------
  // Allowed values
  // ---------------------------------------------------------------------------

  const AllowedPaymentStatus: set<string> := {"paid", "unpaid", "partial"}

  const AllowedPaymentMethods: set<string> := {
    "cash",
    "card",
    "bank_transfer",
    "check",
    "online"
  }

  /** `s` is a non-empty word of lower-case ASCII letters and underscores. */
  predicate IsLowerSnake(s: string) {
    |s| > 0 && forall i :: 0 <= i < |s| ==> ('a' <= s[i] <= 'z' || s[i] == '_')
  }

  /** Exact membership in the payment-status allow-list; defined for every string. */
  function IsValidPaymentStatus(value: string): (b: bool)
    ensures b <==> value == "paid" || value == "unpaid" || value == "partial"
    ensures b ==> IsLowerSnake(value)
  {
    value in AllowedPaymentStatus
  }

  /** Exact membership in the payment-method allow-list; defined for every string. */
  function IsValidPaymentMethod(value: string): (b: bool)
    ensures b <==> value == "cash" || value == "card" || value == "bank_transfer"
                   || value == "check" || value == "online"
    ensures b ==> IsLowerSnake(value)
  {
    value in AllowedPaymentMethods
  }

  /** Neither predicate normalises its input: a value that is not a non-empty
      word of lower-case ASCII letters and underscores (an upper-case or
      accented letter, any white space, any other character, or the empty
      string) is rejected, whatever it would become once trimmed or
      lower-cased. */
  lemma UnnormalisedValuesRejected(value: string)
    requires !IsLowerSnake(value)
    ensures !IsValidPaymentStatus(value)
    ensures !IsValidPaymentMethod(value)
  {
  }

  /** Concrete consequences: mixed-case, accented, unknown and padded values
      (including a trailing no-break space or form feed) fail, and
      there is no "other" fallback for payment methods. */
  lemma RejectedExamples()
    ensures IsValidPaymentStatus("partial") && IsValidPaymentMethod("bank_transfer")
    ensures !IsValidPaymentStatus("PaRTiaL") && !IsValidPaymentStatus("PENDING")
    ensures !IsValidPaymentStatus(" paid") && !IsValidPaymentStatus("paid\U{00A0}")
    ensures !IsValidPaymentStatus("PA\U{00CD}D") && !IsValidPaymentStatus("paid\U{000C}")
    ensures !IsValidPaymentMethod("Crypto") && !IsValidPaymentMethod("Cash")
    ensures !IsValidPaymentMethod("other")
  {
  }

  // ---------------------------------------------------------------------------
  // Numeric tolerance and date format
  // ---------------------------------------------------------------------------

  /** Largest accepted gap between a row's stated and computed total, as an
      exact decimal. */
  const TotalTolerance: real := 0.05

  /** strftime pattern for dates, kept as an uninterpreted string. */
  const DateFormat: string := "%Y-%m-%d"

  /** The tolerance is positive and equals five hundredths (five cents). */
  lemma ToleranceIsFiveCents()
    ensures 0.0 < TotalTolerance
    ensures TotalTolerance * 100.0 == 5.0
  {
  }

  // ---------------------------------------------------------------------------
  // Error kinds
  // ---------------------------------------------------------------------------

  /** The closed set of error kinds reported downstream. */
  datatype ErrorType =
    | MissingRequired
    | InvalidDate
    | InvalidNumeric
    | InvalidStatus
    | InvalidSchema
    | MalformedRow
    | TotalMismatch

  /** The members in declaration order, as iterating over the enumeration yields them. */
  const AllErrorTypes: seq<ErrorType> := [
    MissingRequired, InvalidDate, InvalidNumeric, InvalidStatus,
    InvalidSchema, MalformedRow, TotalMismatch
  ]

  /** The stable string code of an error kind (the enumeration member's value). */
  function Code(e: ErrorType): (r: string)
    ensures IsLowerSnake(r)
  {
    match e
    case MissingRequired => "missing_required_field"
    case InvalidDate => "invalid_date"
    case InvalidNumeric => "invalid_numeric"
    case InvalidStatus => "invalid_payment_status"
    case InvalidSchema => "invalid_schema"
    case MalformedRow => "malformed_row"
    case TotalMismatch => "total_mismatch"
  }

  /** Lookup of an error kind by its code; `None` where the enumeration's own
      lookup by value would raise. */
  function FromCode(s: string): (r: Option<ErrorType>)
    ensures r.Some? ==> Code(r.value) == s
    ensures r.None? ==> forall e: ErrorType :: Code(e) != s
  {
    if s == "missing_required_field" then Some(MissingRequired)
    else if s == "invalid_date" then Some(InvalidDate)
    else if s == "invalid_numeric" then Some(InvalidNumeric)
    else if s == "invalid_payment_status" then Some(InvalidStatus)
    else if s == "invalid_schema" then Some(InvalidSchema)
    else if s == "malformed_row" then Some(MalformedRow)
    else if s == "total_mismatch" then Some(TotalMismatch)
    else None
  }

  /** Every code leads back to the error kind it came from. */
  lemma CodeRoundTrip(e: ErrorType)
    ensures FromCode(Code(e)) == Some(e)
  {
  }

  /** Distinct error kinds never share a code. */
  lemma CodeInjective(a: ErrorType, b: ErrorType)
    ensures Code(a) == Code(b) ==> a == b
  {
  }

  /** The codes of a list of error kinds, position by position. */
  function CodesOf(es: seq<ErrorType>): (r: seq<string>)
    ensures |r| == |es|
    ensures forall i :: 0 <= i < |es| ==> r[i] == Code(es[i])
  {
    if es == [] then [] else [Code(es[0])] + CodesOf(es[1..])
  }

  /** Mapping distinct error kinds to their codes keeps them distinct. */
  lemma DistinctKindsHaveDistinctCodes(es: seq<ErrorType>)
    requires Distinct(es)
    ensures Distinct(CodesOf(es))
  {
    var cs := CodesOf(es);
    forall i, j | 0 <= i < j < |cs|
      ensures cs[i] != cs[j]
    {
      CodeInjective(es[i], es[j]);
    }
  }

  /** The enumeration has exactly seven members, each listed once, and their
      seven codes are pairwise distinct. */
  lemma ErrorTypesEnumerated()
    ensures |AllErrorTypes| == 7 && Distinct(AllErrorTypes)
    ensures forall e: ErrorType :: e in AllErrorTypes
    ensures Distinct(CodesOf(AllErrorTypes))
  {
    forall e: ErrorType
      ensures e in AllErrorTypes
    {
      match e
      case MissingRequired => assert AllErrorTypes[0] == e;
      case InvalidDate => assert AllErrorTypes[1] == e;
      case InvalidNumeric => assert AllErrorTypes[2] == e;
      case InvalidStatus => assert AllErrorTypes[3] == e;
      case InvalidSchema => assert AllErrorTypes[4] == e;
      case MalformedRow => assert AllErrorTypes[5] == e;
      case TotalMismatch => assert AllErrorTypes[6] == e;
    }
    DistinctKindsHaveDistinctCodes(AllErrorTypes);
  }
}
