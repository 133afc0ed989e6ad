/** Value types shared by the session model: the assistant state enum, log
    entries, contacts and schedule entries (types.ts and App.tsx). */
module VancixTypes {

  datatype Option<+T> = None | Some(value: T)

  /** The five assistant states; exactly one holds at a time. */
  datatype VancixState = Idle | Listening | Thinking | Speaking | Error

  datatype LogKind = User | Agent | System

  /** A command-log line; `timestamp` is the clock reading (milliseconds)
      taken when the entry was made. */
  datatype LogEntry = LogEntry(kind: LogKind, text: string, timestamp: int)

  datatype Contact = Contact(name: string, phone: string)

  datatype ScheduleEntry = ScheduleEntry(time: string, event: string)

  /** The fixed contact list the `getContacts` tool returns. */
  const MockContacts: seq<Contact> := [
    Contact("Boss", "+255700000001"),
    Contact("Mom", "+255700000002"),
    Contact("John Dev", "+255700000003")
  ]

  /** The schedule every page load starts with. */
  const InitialSchedule: seq<ScheduleEntry> := [ScheduleEntry("10:00 AM", "System Diagnostics")]

  function Min(a: int, b: int): int { if a <= b then a else b }

  lemma ConcatAssoc<T>(a: seq<T>, b: seq<T>, c: seq<T>)
    ensures (a + b) + c == a + (b + c)
  {
  }
}
