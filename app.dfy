/**
 * The application's configuration values derived from the environment
 * (database URI, secret key) and the dashboard's monthly summary.
 */
module App {
  import opened Wrappers
  import opened Calendar
  import opened Expenses

  predicate StartsWith(s: string, prefix: string) {
    |prefix| <= |s| && s[..|prefix|] == prefix
  }

  /** The pattern occurs in `s` starting at position `i`. */
  predicate OccursAt(s: string, pattern: string, i: nat) {
    i + |pattern| <= |s| && s[i..i + |pattern|] == pattern
  }

  /** `r` is `s` with the first occurrence of the pattern replaced, and `s` itself when the
      pattern does not occur. */
  ghost predicate ReplacesFirst(s: string, pattern: string, replacement: string, r: string) {
    && ((forall i: nat :: !OccursAt(s, pattern, i)) ==> r == s)
    && (forall i: nat :: OccursAt(s, pattern, i) && (forall j: nat :: j < i ==> !OccursAt(s, pattern, j)) ==>
          r == s[..i] + replacement + s[i + |pattern|..])
  }

  /** `s.replace(pattern, replacement, 1)`. */
  function ReplaceFirst(s: string, pattern: string, replacement: string): (r: string)
    requires pattern != ""
    ensures ReplacesFirst(s, pattern, replacement, r)
    decreases |s|
  {
    if |s| < |pattern| then s
    else if s[..|pattern|] == pattern then
      assert OccursAt(s, pattern, 0);
      replacement + s[|pattern|..]
    else
      var rest := ReplaceFirst(s[1..], pattern, replacement);
      ReplaceStep(s, pattern, replacement, rest);
      [s[0]] + rest
  }

  /** Dropping the first character moves every occurrence one place left. */
  lemma ShiftOccurs(s: string, pattern: string)
    requires s != []
    ensures forall i: nat :: OccursAt(s[1..], pattern, i) <==> OccursAt(s, pattern, i + 1)
  {
    forall i: nat
      ensures OccursAt(s[1..], pattern, i) <==> OccursAt(s, pattern, i + 1)
    {
      if i + 1 + |pattern| <= |s| {
        assert s[1..][i..i + |pattern|] == s[i + 1..i + 1 + |pattern|];
      }
    }
  }

  /** Putting the first character back in front of a replacement made in the remainder. */
  lemma ConsSlices(s: string, pattern: string, replacement: string, rest: string, i: nat)
    requires 1 <= i && i + |pattern| <= |s|
    requires rest == s[1..][..i - 1] + replacement + s[1..][i - 1 + |pattern|..]
    ensures [s[0]] + rest == s[..i] + replacement + s[i + |pattern|..]
  {
    assert s[..i] == [s[0]] + s[1..][..i - 1];
    assert s[i + |pattern|..] == s[1..][i - 1 + |pattern|..];
  }

  /** A string that does not start with the pattern: keeping its first character in front of
      the replaced remainder replaces the first occurrence of the whole. */
  lemma ReplaceStep(s: string, pattern: string, replacement: string, rest: string)
    requires s != [] && !OccursAt(s, pattern, 0)
    requires ReplacesFirst(s[1..], pattern, replacement, rest)
    ensures ReplacesFirst(s, pattern, replacement, [s[0]] + rest)
  {
    var t := s[1..];
    ShiftOccurs(s, pattern);
    if forall i: nat :: !OccursAt(s, pattern, i) {
      assert forall i: nat :: !OccursAt(t, pattern, i);
    }
    forall i: nat | OccursAt(s, pattern, i) && (forall j: nat :: j < i ==> !OccursAt(s, pattern, j))
      ensures [s[0]] + rest == s[..i] + replacement + s[i + |pattern|..]
    {
      assert OccursAt(t, pattern, i - 1);
      assert forall j: nat :: j < i - 1 ==> !OccursAt(t, pattern, j);
      ConsSlices(s, pattern, replacement, rest, i);
    }
  }

  const PostgresScheme: string := "postgres://"
  const PostgresqlScheme: string := "postgresql://"

  /** The `DATABASE_URL` scheme fix: a `postgres://` prefix becomes `postgresql://` with the
      rest of the URL kept; any other URL is left as it is. */
  function RewriteDatabaseUrl(url: string): (r: string)
    ensures StartsWith(url, PostgresScheme) ==> r == PostgresqlScheme + url[|PostgresScheme|..]
    ensures !StartsWith(url, PostgresScheme) ==> r == url
    ensures !StartsWith(r, PostgresScheme)
  {
    if StartsWith(url, PostgresScheme) then
      var r := ReplaceFirst(url, PostgresScheme, PostgresqlScheme);
      assert r[8] != PostgresScheme[8];
      r
    else url
  }

  /** Rewriting twice is rewriting once. */
  lemma RewriteIdempotent(url: string)
    ensures RewriteDatabaseUrl(RewriteDatabaseUrl(url)) == RewriteDatabaseUrl(url)
  {
  }

  /** `SQLALCHEMY_DATABASE_URI`: the rewritten `DATABASE_URL` when it is set and not empty,
      otherwise the local SQLite file. */
  function DatabaseUri(databaseUrl: Option<string>): (r: string)
    ensures TruthyString(databaseUrl) ==> r == RewriteDatabaseUrl(databaseUrl.value)
    ensures !TruthyString(databaseUrl) ==> r == "sqlite:///project.db"
    ensures !StartsWith(r, PostgresScheme)
  {
    if TruthyString(databaseUrl) then RewriteDatabaseUrl(databaseUrl.value)
    else
      assert "sqlite:///project.db"[0] != PostgresScheme[0];
      "sqlite:///project.db"
  }

  /** `SECRET_KEY`: the environment's value when it is set and not empty, otherwise the
      development fallback; never empty. */
  function SecretKey(secretKey: Option<string>): (r: string)
    ensures TruthyString(secretKey) ==> r == secretKey.value
    ensures !TruthyString(secretKey) ==> r == "dev-fallback-key"
    ensures r != ""
  {
    if TruthyString(secretKey) then secretKey.value else "dev-fallback-key"
  }

  /** The dashboard's figures. */
  datatype Summary = Summary(totalAmount: int, transactionCount: nat, averageExpense: real)

  /** The average of a summary is its mean: times the count it gives the total, and it is 0
      when the count is 0. */
  predicate MeanFits(s: Summary) {
    && (s.transactionCount > 0 ==> s.averageExpense * (s.transactionCount as real) == s.totalAmount as real)
    && (s.transactionCount == 0 ==> s.averageExpense == 0.0)
  }

  /** The figures for a total over `count` expenses: the mean is the total divided by the count,
      and 0 when there are none. */
  function SummaryOf(total: int, count: nat): (r: Summary)
    ensures r.totalAmount == total && r.transactionCount == count
    ensures MeanFits(r)
  {
    if count > 0 then Summary(total, count, (total as real) / (count as real))
    else Summary(total, count, 0.0)
  }

  /** The dashboard for the month of `today`: the total and the number of the user's expenses
      of that month, and their mean, which is 0 when there are none. */
  function Dashboard(es: seq<Expense>, userId: UserId, today: Date): (r: Summary)
    ensures r.totalAmount == Total(InMonth(es, userId, today.month, today.year))
    ensures r.transactionCount == |InMonth(es, userId, today.month, today.year)|
    ensures MeanFits(r)
    ensures r.transactionCount == 0 ==> r.totalAmount == 0
  {
    var monthly := InMonth(es, userId, today.month, today.year);
    SummaryOf(Total(monthly), |monthly|)
  }
}
