/**
 * The record shapes the views work on, as the subscription hooks map them from the
 * backing store. Optional fields are `Option`s: a document may lack them whatever the
 * declared TypeScript type says. Dates are milliseconds since the epoch.
 */
module Records {
  import opened Common

  /** A bot message (collection `messages`). */
  datatype Message = Message(
    id: string,
    messageId: string,
    from: string,
    msgType: string,          // 'text' | 'interactive'
    textBody: string,
    keyword: Option<string>,
    timestamp: Option<int>,
    date: Option<string>,     // 'YYYY-MM-DD'
    hour: Option<int>,        // hour of day, 0..23
    status: string)           // 'success' | 'error'

  /** A bot contact (collection `users`). */
  datatype User = User(
    id: string,
    name: Option<string>,
    userId: string,
    firstSeen: int,
    lastSeen: int,
    messageCount: int,
    conversationCount: int,
    lastKeyword: Option<string>,
    tags: seq<string>,
    status: string)           // 'active' | 'inactive' | 'converted'

  /** A consultation lead (collection `consultations`). */
  datatype Consultation = Consultation(
    id: string,
    from: string,
    message: string,
    timestamp: int,
    date: string,
    status: string,           // 'pending' | 'contacted' | 'closed' | 'won' | 'lost'
    notified: bool,
    notes: Option<string>)

  /** A per-keyword aggregate; `keyword` is absent for stat documents without one. */
  datatype KeywordStat = KeywordStat(
    keyword: Option<string>,
    count: int,
    conversions: int,
    date: Option<string>)

  /** A system log entry (collection `system_logs`). */
  datatype SystemLog = SystemLog(
    id: string,
    level: string,            // 'INFO' | 'WARN' | 'ERROR' | 'SUCCESS' | 'DEBUG'
    message: string,
    data: Option<string>,
    timestamp: int,
    date: string,
    hour: int,
    environment: string)

  /** One bar of an hourly chart: its label ("0:00" .. "23:00") and its message count. */
  datatype HourlyActivity = HourlyActivity(hour: string, messages: nat)

  /** JavaScript truthiness of an optional string: present and non-empty. */
  predicate Truthy(s: Option<string>)
  {
    s.Some? && s.value != ""
  }

  /** A value spliced into a template literal: an absent one renders as "undefined". */
  function TemplateText(s: Option<string>): string
  {
    if s.Some? then s.value else "undefined"
  }
}
