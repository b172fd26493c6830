/**
 * The records of the finance dashboard (lib/types.ts), with money as integer cents.
 */
module Types {

  datatype Option<+T> = None | Some(value: T)

  /** A dated, signed money movement: a negative amount is an expense, a positive one income. */
  datatype Transaction = Transaction(
    id: string,
    amount: int,
    date: string,        // ISO "YYYY-MM-DD"
    description: string,
    categoryId: string)

  /** A transaction as the store receives it for insertion, before it is given an id. */
  datatype TransactionInput = TransactionInput(
    amount: int,
    date: string,
    description: string,
    categoryId: string)

  datatype Category = Category(id: string, name: string, color: string, icon: string)

  /** A spending ceiling for one category in one month "YYYY-MM". */
  datatype Budget = Budget(id: string, categoryId: string, amount: int, month: string)

  /** A budget as the store receives it for insertion, before it is given an id. */
  datatype BudgetInput = BudgetInput(categoryId: string, amount: int, month: string)

  /** One chart row; `color` is optional, as in the source's `color?: string`. */
  datatype ChartData = ChartData(name: string, value: int, color: Option<string>)

  datatype InsightKind = Info | Warning | Success

  /**
   * A generated advisory message, kept as its structured content instead of the formatted text:
   * which rule fired, the category name shown, and the amounts the message shows.
   */
  datatype Insight =
    | OverBudget(categoryName: string, overBy: int)
    | ApproachingBudget(categoryName: string, spent: int, budget: int)
    | WellUnderBudget(categoryName: string, spent: int, budget: int)
    | HighestCategory(categoryName: string, amount: int)
    | Concentration(categoryName: string, percent: int)
  {
    /** The `type` field of the source's SpendingInsight. */
    function Kind(): InsightKind {
      match this
      case OverBudget(_, _) => Warning
      case WellUnderBudget(_, _, _) => Success
      case _ => Info
    }
  }

  function TransactionId(t: Transaction): string { t.id }

  function BudgetId(b: Budget): string { b.id }

  /** `categories.find(c => c.id === id)`: the first category with that id. */
  function FindCategory(categories: seq<Category>, id: string): (r: Option<Category>)
    ensures r.Some? ==> r.value in categories && r.value.id == id
    ensures r.None? <==> forall c :: c in categories ==> c.id != id
  {
    if categories == [] then None
    else if categories[0].id == id then Some(categories[0])
    else FindCategory(categories[1..], id)
  }

  /** The category found is the first one in list order that has the id. */
  lemma {:induction false} FindCategoryIsFirst(categories: seq<Category>, id: string, k: nat)
    requires k < |categories| && categories[k].id == id
    requires forall j :: 0 <= j < k ==> categories[j].id != id
    ensures FindCategory(categories, id) == Some(categories[k])
    decreases k
  {
    if k > 0 {
      FindCategoryIsFirst(categories[1..], id, k - 1);
    }
  }
}
