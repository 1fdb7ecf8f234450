/**
 * The system log viewer (src/components/admin/SystemLogs.tsx): logs kept by a
 * search over message, optional details and category, a level filter and a category
 * filter; the distinct categories for the category selector; and one counter card
 * per level, whose click selects that level. The properties hold for any list of logs.
 */
module SystemLogs {
  import opened Wrappers
  import opened Seqs
  import opened Text

  datatype LogLevel = Info | Warning | Error | Success

  datatype LogEntry = LogEntry(id: string, timestamp: string, level: LogLevel, category: string,
                               message: string, details: Option<string>, userId: Option<string>,
                               tenantId: Option<string>)

  /** The level's name, as the filter and the cards spell it. */
  function LevelName(l: LogLevel): string
  {
    match l
    case Info => "info"
    case Warning => "warning"
    case Error => "error"
    case Success => "success"
  }

  /** A log without details can only match through its message or its category. */
  predicate MatchesSearch(query: string, log: LogEntry)
  {
    || Contains(Lower(log.message), Lower(query))
    || (log.details.Some? && Contains(Lower(log.details.value), Lower(query)))
    || Contains(Lower(log.category), Lower(query))
  }

  predicate Matches(query: string, levelFilter: string, categoryFilter: string, log: LogEntry)
  {
    && MatchesSearch(query, log)
    && (levelFilter == "all" || LevelName(log.level) == levelFilter)
    && (categoryFilter == "all" || log.category == categoryFilter)
  }

  function Kept(query: string, levelFilter: string, categoryFilter: string): LogEntry -> bool
  {
    (log: LogEntry) => Matches(query, levelFilter, categoryFilter, log)
  }

  /** `filteredLogs`. */
  function FilteredLogs(logs: seq<LogEntry>, query: string, levelFilter: string, categoryFilter: string): seq<LogEntry>
  {
    Filter(logs, Kept(query, levelFilter, categoryFilter))
  }

  /**
   * The list keeps the logs' order and holds exactly the matching logs; a level
   * chosen on a card leaves only logs of that level.
   */
  lemma FilteredLogsSpec(logs: seq<LogEntry>, query: string, level: LogLevel, categoryFilter: string)
    ensures IsSubsequence(FilteredLogs(logs, query, LevelName(level), categoryFilter), logs)
    ensures forall k :: 0 <= k < |logs| ==>
              (logs[k] in FilteredLogs(logs, query, LevelName(level), categoryFilter) <==>
               Matches(query, LevelName(level), categoryFilter, logs[k]))
    ensures forall k :: 0 <= k < |FilteredLogs(logs, query, LevelName(level), categoryFilter)| ==>
              FilteredLogs(logs, query, LevelName(level), categoryFilter)[k].level == level
  {
    var r := FilteredLogs(logs, query, LevelName(level), categoryFilter);
    FilterIsSubsequence(logs, Kept(query, LevelName(level), categoryFilter));
    forall k | 0 <= k < |logs| && logs[k] in r
      ensures Matches(query, LevelName(level), categoryFilter, logs[k])
    {
      var j :| 0 <= j < |r| && r[j] == logs[k];
    }
  }

  /** An empty search with both filters on "all" keeps every log, with or without details. */
  lemma EmptySearchKeepsAll(logs: seq<LogEntry>)
    ensures FilteredLogs(logs, "", "all", "all") == logs
  {
    forall k | 0 <= k < |logs|
      ensures Kept("", "all", "all")(logs[k])
    {
      EmptyIsContained(Lower(logs[k].message));
    }
    FilterAll(logs, Kept("", "all", "all"));
  }

  function Category(log: LogEntry): string
  {
    log.category
  }

  /** `[...new Set(mockLogs.map((log) => log.category))]`. */
  function Categories(logs: seq<LogEntry>): seq<string>
  {
    Distinct(Map(logs, Category))
  }

  /**
   * Each category is listed once, every log's category is listed, nothing else is,
   * and they appear in the order each first occurs.
   */
  lemma CategoriesSpec(logs: seq<LogEntry>)
    ensures NoDuplicates(Categories(logs))
    ensures forall k :: 0 <= k < |logs| ==> logs[k].category in Categories(logs)
    ensures forall k :: 0 <= k < |Categories(logs)| ==> exists j :: 0 <= j < |logs| && logs[j].category == Categories(logs)[k]
    ensures forall i, j :: 0 <= i < j < |Categories(logs)| ==>
              FirstIndex(Map(logs, Category), Categories(logs)[i]) < FirstIndex(Map(logs, Category), Categories(logs)[j])
  {
    var cats := Map(logs, Category);
    assert forall k :: 0 <= k < |logs| ==> cats[k] == logs[k].category;
    DistinctFirstOccurrenceOrder(cats);
  }

  function AtLevel(l: LogLevel): LogEntry -> bool
  {
    (log: LogEntry) => log.level == l
  }

  /** `logCounts[level]`. */
  function LevelCount(logs: seq<LogEntry>, l: LogLevel): nat
  {
    Count(logs, AtLevel(l))
  }

  /** Every log has exactly one of the four levels, so the four cards count every log once. */
  lemma {:induction false} LevelCountsAddUp(logs: seq<LogEntry>)
    ensures LevelCount(logs, Info) + LevelCount(logs, Warning) + LevelCount(logs, Error)
            + LevelCount(logs, Success) == |logs|
  {
    if logs != [] {
      LevelCountsAddUp(logs[1..]);
    }
  }

  /** A level card shows its count and, clicked, sets the level filter to its name. */
  datatype LevelCard = LevelCard(level: LogLevel, count: nat, onClick: string)

  function LevelCards(logs: seq<LogEntry>): (r: seq<LevelCard>)
    ensures |r| == 4
    ensures forall k :: 0 <= k < 4 ==> r[k].count == LevelCount(logs, r[k].level) && r[k].onClick == LevelName(r[k].level)
    ensures r[0].level == Info && r[1].level == Warning && r[2].level == Error && r[3].level == Success
  {
    [ LevelCard(Info, LevelCount(logs, Info), "info"),
      LevelCard(Warning, LevelCount(logs, Warning), "warning"),
      LevelCard(Error, LevelCount(logs, Error), "error"),
      LevelCard(Success, LevelCount(logs, Success), "success") ]
  }
}
