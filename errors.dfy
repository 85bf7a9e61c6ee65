/** Error kinds of the inventory ledger and the order workflow, and the
    identifier check both of them use. */
module Errors {

  /** The record type a NotFound error names. */
  datatype Entity = InventoryRecord | SalesOrderRecord | ProductRecord | SupplierRecord

  /** One constructor per exception class the services throw:
      IllegalArgumentException, InvalidQuantityException,
      EntityNotFoundException, InsufficientStockException and
      IllegalStateException. */
  datatype Error =
    | InvalidArgument
    | InvalidQuantity
    | NotFound(entity: Entity)
    | InsufficientStock
    | IllegalState

  /** The completion of an operation that returns nothing. */
  datatype Outcome = Done | Failed(error: Error)

  /** The completion of an operation that returns a value. */
  datatype Result<T> = Ok(value: T) | Err(error: Error)

  /** Java's `String.trim()`: strips every leading and every trailing
      character at or below U+0020. */
  function Trim(s: string): string
  {
    TrimTrailing(TrimLeading(s))
  }

  function TrimLeading(s: string): string
  {
    if |s| > 0 && s[0] <= ' ' then TrimLeading(s[1..]) else s
  }

  function TrimTrailing(s: string): string
  {
    if |s| > 0 && s[|s| - 1] <= ' ' then TrimTrailing(s[..|s| - 1]) else s
  }

  /** Leading trimming empties a string exactly when every character is at
      or below the space character, and otherwise stops at one above it. */
  lemma {:induction false} TrimLeadingShape(s: string)
    ensures TrimLeading(s) == [] <==> forall i | 0 <= i < |s| :: s[i] <= ' '
    ensures TrimLeading(s) != [] ==> TrimLeading(s)[0] > ' '
    decreases |s|
  {
    if |s| > 0 && s[0] <= ' ' {
      TrimLeadingShape(s[1..]);
      assert forall i | 1 <= i < |s| :: s[i] == s[1..][i - 1];
    }
  }

  /** Trailing trimming never removes a first character above the space
      character. */
  lemma {:induction false} TrimTrailingKeepsFirst(s: string)
    requires |s| > 0 && s[0] > ' '
    ensures TrimTrailing(s) != []
    decreases |s|
  {
    if s[|s| - 1] <= ' ' {
      TrimTrailingKeepsFirst(s[..|s| - 1]);
    }
  }

  /** An identifier that is empty after trimming: every character is at or
      below the space character. */
  predicate Blank(s: string)
  {
    forall i | 0 <= i < |s| :: s[i] <= ' '
  }

  /** `s.trim().isEmpty()` is Blank: trimming leaves nothing exactly when
      every character is at or below U+0020. */
  lemma BlankIsTrimEmpty(s: string)
    ensures Blank(s) <==> Trim(s) == []
  {
    TrimLeadingShape(s);
    if TrimLeading(s) != [] {
      TrimTrailingKeepsFirst(TrimLeading(s));
    }
  }
}
