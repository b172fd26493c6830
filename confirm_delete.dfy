/**
 * The delete confirmation shared by the budget and transaction lists
 * (components/budget/BudgetList.tsx, components/transactions/TransactionList.tsx): a pending id
 * held in `deleteId`, and an alert dialog that is open while that id is truthy.
 */
module ConfirmDelete {
  import opened Types

  class DeleteDialog {
    /** `useState(null)`: None, or the id waiting for confirmation. */
    var deleteId: Option<string>

    /** The dialog's `open={!!deleteId}`: an empty id is falsy, so it keeps the dialog closed. */
    predicate Open()
      reads this
    {
      deleteId.Some? && deleteId.value != ""
    }

    constructor ()
      ensures deleteId == None && !Open()
    {
      deleteId := None;
    }

    /** `handleDelete(id)`: remember the id; the dialog opens when it is not empty. */
    method HandleDelete(id: string)
      modifies this
      ensures deleteId == Some(id)
      ensures Open() <==> id != ""
    {
      deleteId := Some(id);
    }

    /** `cancelDelete()`, also run when the dialog is dismissed. */
    method CancelDelete()
      modifies this
      ensures deleteId == None && !Open()
    {
      deleteId := None;
    }
  }
}
