/** The symbol shown for a prediction status (internal/util/status.go). */
module StatusDisplay {
  import opened Replicate

  /** A coloured circle for each of the five statuses; any other status is shown as it is. */
  function StatusSymbol(status: string): (symbol: string)
    ensures status == Starting ==> symbol == "\U{26AA}\U{FE0F}"
    ensures status == Processing ==> symbol == "\U{1F7E1}"
    ensures status == Failed ==> symbol == "\U{1F534}"
    ensures status == Succeeded ==> symbol == "\U{1F7E2}"
    ensures status == Canceled ==> symbol == "\U{1F535}"
    ensures status !in {Starting, Processing, Failed, Succeeded, Canceled} ==> symbol == status
  {
    if status == Starting then "\U{26AA}\U{FE0F}"
    else if status == Processing then "\U{1F7E1}"
    else if status == Failed then "\U{1F534}"
    else if status == Succeeded then "\U{1F7E2}"
    else if status == Canceled then "\U{1F535}"
    else status
  }

  /** Different known statuses get different symbols, and no symbol reads as a status name. */
  lemma {:induction false} SymbolsDistinguishStatuses(s1: string, s2: string)
    requires s1 in {Starting, Processing, Failed, Succeeded, Canceled}
    requires s2 in {Starting, Processing, Failed, Succeeded, Canceled}
    ensures StatusSymbol(s1) == StatusSymbol(s2) <==> s1 == s2
    ensures StatusSymbol(s1) !in {Starting, Processing, Failed, Succeeded, Canceled}
  {
  }
}
