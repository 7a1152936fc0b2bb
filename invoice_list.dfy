/**
 * The invoice list's rules per invoice: the badge colour, the badge label,
 * and which actions the desktop menu and the mobile buttons offer.
 */
module InvoiceList {
  import opened Types
  import opened Text

  /** `getStatusColor`: the grey badge marks exactly the draft and the cancelled invoices. */
  function StatusColor(status: InvoiceStatus): (color: string)
    ensures color == "bg-gray-100 text-gray-800" <==> status == Draft || status == Cancelled
  {
    match status
    case Draft => "bg-gray-100 text-gray-800"
    case Sent => "bg-blue-100 text-blue-800"
    case Paid => "bg-green-100 text-green-800"
    case Overdue => "bg-red-100 text-red-800"
    case Cancelled => "bg-gray-100 text-gray-800"
  }

  /**
   * Cancelled falls to the default colour, which is the draft colour; sent,
   * paid and overdue each have a colour of their own.
   */
  lemma StatusColors()
    ensures StatusColor(Cancelled) == StatusColor(Draft)
    ensures forall a: InvoiceStatus, b: InvoiceStatus | a != b && a != Cancelled && b != Cancelled ::
      StatusColor(a) != StatusColor(b)
  {
    forall a: InvoiceStatus, b: InvoiceStatus | a != b && a != Cancelled && b != Cancelled
      ensures StatusColor(a) != StatusColor(b)
    {
      assert StatusColor(a)[5] != StatusColor(b)[5];
    }
  }

  /** The badge text: the status literal with its first character upper-cased. */
  function StatusLabel(status: InvoiceStatus): (badge: string)
    ensures |badge| == |status.Name()| > 0
    ensures 'A' <= badge[0] <= 'Z' && badge[1..] == status.Name()[1..]
  {
    Capitalize(status.Name())
  }

  /** The label is the literal with only its first character changed, to upper case. */
  lemma StatusLabelSpec(status: InvoiceStatus)
    ensures |StatusLabel(status)| == |status.Name()| > 0
    ensures StatusLabel(status)[0] == UpperChar(status.Name()[0])
    ensures StatusLabel(status)[1..] == status.Name()[1..]
    ensures StatusLabel(Overdue) == "Overdue"
  {
    assert StatusLabel(Overdue)[0] == 'O';
    assert StatusLabel(Overdue)[1..] == "verdue";
  }

  /** One entry of an invoice's action menu or button row. */
  datatype Action =
    | ChangeStatus(caption: string, target: InvoiceStatus)
    | ViewDetails(caption: string)
    | DownloadPdf
    | Delete

  /**
   * The desktop drop-down for an invoice with this status, in display order:
   * each status change it offers is a move the lifecycle allows, and it ends
   * with delete.
   */
  function DesktopMenu(status: InvoiceStatus): (menu: seq<Action>)
    ensures forall i | 0 <= i < |menu| && menu[i].ChangeStatus? :: MayMoveTo(status, menu[i].target)
    ensures |menu| > 0 && menu[|menu| - 1] == Delete
  {
    (if status == Draft then [ChangeStatus("Send Invoice", Sent)] else [])
    + (if status == Sent then [ChangeStatus("Mark as Paid", Paid)] else [])
    + (if status == Overdue then [ChangeStatus("Mark as Paid", Paid)] else [])
    + [ViewDetails("View Details"), DownloadPdf, Delete]
  }

  /**
   * The mobile card's buttons for an invoice with this status, in display
   * order: each status change is a move the lifecycle allows, and the row
   * ends with delete.
   */
  function MobileButtons(status: InvoiceStatus): (buttons: seq<Action>)
    ensures forall i | 0 <= i < |buttons| && buttons[i].ChangeStatus? :: MayMoveTo(status, buttons[i].target)
    ensures |buttons| > 0 && buttons[|buttons| - 1] == Delete
  {
    (if status == Draft then [ChangeStatus("Send", Sent)] else [])
    + (if status == Sent || status == Overdue then [ChangeStatus("Mark Paid", Paid)] else [])
    + [ViewDetails("View"), Delete]
  }

  /** The statuses an action row lets the user move the invoice to. */
  function Targets(actions: seq<Action>): set<InvoiceStatus>
  {
    set i | 0 <= i < |actions| && actions[i].ChangeStatus? :: actions[i].target
  }

  /** The intended lifecycle: draft to sent, sent or overdue to paid, nothing else. */
  predicate MayMoveTo(from: InvoiceStatus, to: InvoiceStatus)
  {
    (from == Draft && to == Sent) || ((from == Sent || from == Overdue) && to == Paid)
  }

  /** The desktop menu offers exactly the lifecycle's moves out of the invoice's status. */
  lemma DesktopOffersLifecycle(status: InvoiceStatus)
    ensures forall to: InvoiceStatus :: to in Targets(DesktopMenu(status)) <==> MayMoveTo(status, to)
  {
    var m := DesktopMenu(status);
    forall to: InvoiceStatus ensures to in Targets(m) <==> MayMoveTo(status, to) {
      if MayMoveTo(status, to) {
        assert m[0].ChangeStatus? && m[0].target == to;
      }
    }
  }

  /** The mobile buttons offer the same moves as the desktop menu, for every status. */
  lemma MobileMatchesDesktop(status: InvoiceStatus)
    ensures Targets(MobileButtons(status)) == Targets(DesktopMenu(status))
  {
    DesktopOffersLifecycle(status);
    var m := MobileButtons(status);
    forall to: InvoiceStatus ensures to in Targets(m) <==> MayMoveTo(status, to) {
      if MayMoveTo(status, to) {
        assert m[0].ChangeStatus? && m[0].target == to;
      }
    }
  }

  /**
   * No offered move leads back to draft, paid and cancelled invoices offer
   * none, and delete is offered whatever the status, in both views.
   */
  lemma LifecycleShape(status: InvoiceStatus)
    ensures Draft !in Targets(DesktopMenu(status)) && Draft !in Targets(MobileButtons(status))
    ensures Targets(DesktopMenu(Paid)) == {} && Targets(DesktopMenu(Cancelled)) == {}
    ensures Delete in DesktopMenu(status) && Delete in MobileButtons(status)
  {
    DesktopOffersLifecycle(status);
    DesktopOffersLifecycle(Paid);
    DesktopOffersLifecycle(Cancelled);
    MobileMatchesDesktop(status);
    assert DesktopMenu(status)[|DesktopMenu(status)| - 1] == Delete;
    assert MobileButtons(status)[|MobileButtons(status)| - 1] == Delete;
  }

  /** The action row never offers two moves: at most one entry changes the status. */
  lemma AtMostOneMove(status: InvoiceStatus)
    ensures forall i, j | 0 <= i < j < |DesktopMenu(status)| :: !(DesktopMenu(status)[i].ChangeStatus? && DesktopMenu(status)[j].ChangeStatus?)
    ensures forall i, j | 0 <= i < j < |MobileButtons(status)| :: !(MobileButtons(status)[i].ChangeStatus? && MobileButtons(status)[j].ChangeStatus?)
  {
  }
}
