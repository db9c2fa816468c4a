/** The update journal: one state line followed by the retained paths. */
module Journals {
  import opened Text
  import opened Disks

  datatype State = Committing | Trial | Confirmed

  datatype Journal = Journal(attempt: int, state: State, paths: seq<Path>)

  const COMMITTING := "committing"
  const CONFIRMED := "confirmed"

  /** A missing or empty journal: nothing is on trial. */
  const NOTHING := Journal(0, Confirmed, [])

  function NonEmpty(lines: seq<string>): (r: seq<string>)
    ensures forall p | p in r :: p != "" && p in lines
  {
    if lines == [] then []
    else (if lines[0] == "" then [] else [lines[0]]) + NonEmpty(lines[1..])
  }

  function ParseJournal(text: string): Journal {
    var lines := Split(text, '\n');
    var first := lines[0];
    if first == "" then NOTHING else
    var paths := NonEmpty(lines[1..]);
    if first == COMMITTING then Journal(0, Committing, paths)
    else if first == CONFIRMED then Journal(0, Confirmed, paths)
    else match ParseInt(first)
      case Some(n) => Journal(n, Trial, paths)
      case None => Journal(0, Committing, paths)
  }

  function ReadJournal(files: Files, journal: Path): Journal {
    if journal in files then ParseJournal(files[journal]) else NOTHING
  }

  function Lines(paths: seq<string>): string {
    if paths == [] then "" else paths[0] + "\n" + Lines(paths[1..])
  }

  function JournalText(line1: string, paths: seq<Path>): string {
    line1 + "\n" + Lines(paths)
  }

  /** A path that survives the journal's line format. */
  predicate OneLine(p: Path) { p != "" && '\n' !in p }

  predicate AllOneLine(paths: seq<Path>) { forall p | p in paths :: OneLine(p) }

  lemma {:induction false} LinesSplit(paths: seq<Path>)
    requires AllOneLine(paths)
    ensures NonEmpty(Split(Lines(paths), '\n')) == paths
  {
    if paths == [] {
      assert Split("", '\n') == [""];
      assert NonEmpty([""]) == [];
    } else {
      var rest := Lines(paths[1..]);
      assert OneLine(paths[0]);
      assert paths[0] + "\n" + rest == paths[0] + ['\n'] + rest;
      SplitHead(paths[0], '\n', rest);
      LinesSplit(paths[1..]);
      var all := Split(Lines(paths), '\n');
      assert all[1..] == Split(rest, '\n');
    }
  }

  lemma TextLines(line1: string, paths: seq<Path>)
    requires line1 != "" && '\n' !in line1 && AllOneLine(paths)
    ensures var lines := Split(JournalText(line1, paths), '\n');
            lines[0] == line1 && NonEmpty(lines[1..]) == paths
  {
    assert JournalText(line1, paths) == line1 + ['\n'] + Lines(paths);
    SplitHead(line1, '\n', Lines(paths));
    LinesSplit(paths);
    var lines := Split(JournalText(line1, paths), '\n');
    assert lines[1..] == Split(Lines(paths), '\n');
  }

  /** The state line that `write_journal` is given for each state. */
  function StateLine(state: State, attempt: int): (s: string)
    ensures s != "" && '\n' !in s
  {
    match state
    case Committing => COMMITTING
    case Confirmed => CONFIRMED
    case Trial => IntText(attempt)
  }

  /** Reading back what was written gives the state, the attempt and the paths. */
  lemma JournalRoundTrip(state: State, attempt: int, paths: seq<Path>)
    requires AllOneLine(paths)
    ensures ParseJournal(JournalText(StateLine(state, attempt), paths))
            == Journal(if state == Trial then attempt else 0, state, paths)
  {
    TextLines(StateLine(state, attempt), paths);
    if state == Trial {
      ParseIntText(attempt);
      var s := IntText(attempt);
      assert s[0] != COMMITTING[0] && s[0] != CONFIRMED[0];
    }
  }

  /** Whatever a journal holds, its paths are lines that could be written again. */
  lemma ParsedPathsAreLines(text: string)
    ensures AllOneLine(ParseJournal(text).paths)
  {
    SplitPieces(text, '\n');
  }

  lemma ReadPathsAreLines(files: Files, journal: Path)
    ensures AllOneLine(ReadJournal(files, journal).paths)
  {
    if journal in files { ParsedPathsAreLines(files[journal]); }
  }

  /** Equal texts come from equal states and paths. */
  lemma JournalAgain(files: Files, journal: Path)
    ensures var r := ReadJournal(files, journal);
            ParseJournal(JournalText(StateLine(r.state, r.attempt), r.paths)) == r
  {
    var r := ReadJournal(files, journal);
    ReadPathsAreLines(files, journal);
    JournalRoundTrip(r.state, r.attempt, r.paths);
  }
  /** Every text is a journal, and a damaged one is safe: it reads as confirmed exactly
      when its first line is empty or says so, as on trial exactly when that is a numeral,
      and as committing, "restore everything", otherwise. The other lines that are not
      empty are its paths. */
  lemma JournalFailsSafe(first: string, rest: string)
    requires '\n' !in first
    ensures var j := ParseJournal(first + ['\n'] + rest);
            && (j.state == Confirmed <==> first == "" || first == "confirmed")
            && (forall n :: j == Journal(n, Trial, j.paths) <==> Spells(first, n))
            && (j.state != Trial ==> j.attempt == 0)
            && (first != "" ==> forall p :: p in j.paths <==> p != "" && p in Split(rest, '\n'))
  {
    hide ParseInt, Spells;
    SplitHead(first, '\n', rest);
    var lines := Split(first + ['\n'] + rest, '\n');
    assert lines[1..] == Split(rest, '\n');
    NonEmptyIs(lines[1..]);
    forall n ensures ParseInt(first) == Some(n) <==> Spells(first, n) { ParseIntIff(first, n); }
    NoNumerals();
  }

  lemma {:induction false} NonEmptyIs(lines: seq<string>)
    ensures forall p :: p in NonEmpty(lines) <==> p != "" && p in lines
  {
    if lines != [] { NonEmptyIs(lines[1..]); }
  }

  lemma NoNumerals()
    ensures ParseInt("") == None && ParseInt(COMMITTING) == None && ParseInt(CONFIRMED) == None
  {
    hide NatValue;
    assert StripLeft(COMMITTING) == COMMITTING && StripLeft(CONFIRMED) == CONFIRMED;
    assert !IsDigit(COMMITTING[0]) && !IsDigit(CONFIRMED[0]);
  }
}
