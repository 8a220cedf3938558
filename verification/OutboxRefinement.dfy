/** The outbox row of a tax command moves as the issuing protocol expects of its commands. */
module OutboxRefinement {
  import T = Tables
  import O = Outbox
  import I = Invoicing

  /** The import gate withholds reminders only, so a tax command is never cancelled. */
  function CommandStatusOf(s: O.Status): T.CommandStatus
    requires s != O.EventCancelled
  {
    match s
    case Waiting => T.CommandPending
    case RetryWait => T.CommandRetryWait
    case Processing => T.CommandProcessing
    case DeadLetter => T.CommandDeadLetter
    case Delivered => T.CommandDelivered
  }

  /** The protocol step that a change of a command's outbox row stands for. */
  ghost function Abstract(b: T.Books, c: T.Id, m: O.Move, to: O.Status): T.Outcome<T.Books>
    requires to != O.EventCancelled
  {
    if m.ManualRetry? then I.RetryOutbox(b, c) else I.MoveCommand(b, c, CommandStatusOf(to))
  }

  /** Every move of the outbox that changes the status of a tax command is a step of the
      issuing protocol with the same outcome. */
  lemma OutboxRefinesCommands(w: O.World, m: O.Move, c: T.Id, b: T.Books)
    requires c in w.rows && !m.CancelHeld? && w.rows[c].status != O.EventCancelled
    requires c in b.inv.commands && b.inv.commands[c].status == CommandStatusOf(w.rows[c].status)
    ensures c in O.Next(w, m).rows && O.Next(w, m).rows[c].status != O.EventCancelled
    ensures var to := O.Next(w, m).rows[c].status;
      to != w.rows[c].status ==>
        && Abstract(b, c, m, to).Done?
        && c in Abstract(b, c, m, to).value.inv.commands
        && Abstract(b, c, m, to).value.inv.commands[c].status == CommandStatusOf(to)
  {
    hide I.Accept, I.AcceptRed;
    O.NextMovesStatus(w, m, c);
  }
}
