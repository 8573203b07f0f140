/**
 The manager that takes over /etc/resolv.conf and gives it back: backing up,
 rewriting and restoring, among overwrites and deletions by other programs.
 The file system does not fail and has no dangling links.
 */
module ResolvConf {
  import opened Common

  // ---------------------------------------------------------------------
  // Files
  // ---------------------------------------------------------------------

  /**
   The paths the manager touches: /etc/resolv.conf, its backup, the file an
   older release left behind, a temporary file with a random suffix; and the rest.
   */
  datatype Path = Resolv | Backup | TailscaleConf | Tmp(suffix: nat) | Other(name: string)

  datatype File = File(contents: string, isRegular: bool)

  type Files = map<Path, File>

  datatype Error = NotExist

  datatype OSConfig = OSConfig(nameservers: seq<string>, searchDomains: seq<string>, matchDomains: seq<string>)

  predicate IsZero(c: OSConfig) {
    |c.nameservers| == 0 && |c.searchDomains| == 0 && |c.matchDomains| == 0
  }

  // ---------------------------------------------------------------------
  // The marker
  // ---------------------------------------------------------------------

  const MARKER := "generated by tailscale"
  const OPENING := "# resolv.conf(5) file "
  const NOTE := "# DO NOT EDIT " + "THIS FILE BY HAND " + "-- CHANGES WILL " + "BE OVERWRITTEN"
  const WARNING := ['\n'] + NOTE + ['\n'] + ['\n']

  predicate OccursAt(s: string, sub: string, i: int) {
    0 <= i <= |s| - |sub| && s[i..i + |sub|] == sub
  }

  predicate Contains(s: string, sub: string) {
    exists i :: 0 <= i <= |s| && OccursAt(s, sub, i)
  }

  /** The file bears Tailscale's marker. */
  predicate Owned(f: File) { f.isRegular && Contains(f.contents, MARKER) }

  function NameserverLines(servers: seq<string>): string {
    if servers == [] then ""
    else NameserverLines(servers[..|servers| - 1]) + "nameserver " + servers[|servers| - 1] + "\n"
  }

  function Joined(domains: seq<string>): string {
    if domains == [] then "" else Joined(domains[..|domains| - 1]) + " " + domains[|domains| - 1]
  }

  function SearchLine(domains: seq<string>): string {
    if domains == [] then "" else "search" + Joined(domains) + "\n"
  }

  /** The text written for a configuration. */
  function Render(servers: seq<string>, domains: seq<string>): string {
    OPENING + MARKER + (WARNING + NameserverLines(servers) + SearchLine(domains))
  }

  lemma ContainsMiddle(a: string, sub: string, b: string)
    ensures Contains(a + sub + b, sub)
  {
    assert OccursAt(a + sub + b, sub, |a|);
  }

  /** Whatever the configuration, the text is recognised as Tailscale's own. */
  lemma RenderIsOwned(servers: seq<string>, domains: seq<string>)
    ensures Owned(File(Render(servers, domains), true))
  {
    ContainsMiddle(OPENING, MARKER, WARNING + NameserverLines(servers) + SearchLine(domains));
  }

  method WriteNameservers(servers: seq<string>) returns (w: string)
    ensures w == NameserverLines(servers)
  {
    w := "";
    for i := 0 to |servers|
      invariant w == NameserverLines(servers[..i])
    {
      assert servers[..i + 1][..i] == servers[..i];
      w := w + "nameserver ";
      w := w + servers[i];
      w := w + "\n";
    }
    assert servers[..|servers|] == servers;
  }

  method WriteSearch(domains: seq<string>) returns (w: string)
    ensures w == SearchLine(domains)
  {
    w := "";
    if |domains| > 0 {
      w := w + "search";
      for i := 0 to |domains|
        invariant w == "search" + Joined(domains[..i])
      {
        assert domains[..i + 1][..i] == domains[..i];
        w := w + " ";
        w := w + domains[i];
      }
      assert domains[..|domains|] == domains;
      w := w + "\n";
    }
  }

  /** The text written out is what Render says, and bears the marker. */
  method WriteResolvConf(servers: seq<string>, domains: seq<string>) returns (w: string)
    ensures w == Render(servers, domains)
    ensures Owned(File(w, true))
  {
    var lines := WriteNameservers(servers);
    var search := WriteSearch(domains);
    w := OPENING + MARKER + (WARNING + lines + search);
    RenderIsOwned(servers, domains);
  }

  // ---------------------------------------------------------------------
  // Reading the text back
  // ---------------------------------------------------------------------

  /** The pieces that end at a separator, and the rest if there is any. */
  function Pieces(s: string, sep: char): seq<string>
    decreases |s|
  {
    if s == "" then []
    else
      var i := FirstAt(s, sep);
      if i == |s| then [s] else [s[..i]] + Pieces(s[i + 1..], sep)
  }

  /** Where the first separator is, or the end. */
  function FirstAt(s: string, sep: char): (i: nat)
    ensures i <= |s| && sep !in s[..i] && (i < |s| ==> s[i] == sep)
  {
    if s == "" || s[0] == sep then 0
    else
      var i := FirstAt(s[1..], sep);
      assert s[..i + 1] == [s[0]] + s[1..][..i];
      i + 1
  }

  predicate IsSpace(c: char) { c == ' ' || c == '\t' || c == '\n' || c == '\r' }

  function TrimLeft(s: string): string { if s != "" && IsSpace(s[0]) then TrimLeft(s[1..]) else s }

  function TrimRight(s: string): string { if s != "" && IsSpace(s[|s| - 1]) then TrimRight(s[..|s| - 1]) else s }

  function TrimSpace(s: string): string { TrimRight(TrimLeft(s)) }

  const NAMESERVER := "nameserver"
  const SEARCH := "search"

  /** What the name server lines and the search lines of a file say, before addresses and names are parsed. */
  datatype Entries = Entries(nameservers: seq<string>, searches: seq<string>)

  function Entry(e: Entries, text: string): Entries {
    var line := TrimSpace(text);
    if NAMESERVER <= line then e.(nameservers := e.nameservers + [TrimSpace(line[|NAMESERVER|..])])
    else if SEARCH <= line then e.(searches := e.searches + [TrimSpace(line[|SEARCH|..])])
    else e
  }

  function EntriesOf(lines: seq<string>): Entries {
    if lines == [] then Entries([], []) else Entry(EntriesOf(lines[..|lines| - 1]), lines[|lines| - 1])
  }

  /** Reads a resolv.conf line by line. */
  method ReadResolv(text: string) returns (e: Entries)
    ensures e == EntriesOf(Pieces(text, '\n'))
  {
    var lines := Pieces(text, '\n');
    e := Entries([], []);
    for i := 0 to |lines|
      invariant e == EntriesOf(lines[..i])
    {
      assert lines[..i + 1][..i] == lines[..i];
      var line := TrimSpace(lines[i]);
      if NAMESERVER <= line {
        e := e.(nameservers := e.nameservers + [TrimSpace(line[|NAMESERVER|..])]);
        continue;
      }
      if SEARCH <= line {
        e := e.(searches := e.searches + [TrimSpace(line[|SEARCH|..])]);
        continue;
      }
    }
    assert lines[..|lines|] == lines;
  }

  /** An address or a name as written: not empty, and without white space. */
  predicate Word(s: string) { s != "" && forall i :: 0 <= i < |s| ==> !IsSpace(s[i]) }

  ghost predicate Words(ss: seq<string>) { forall i :: 0 <= i < |ss| ==> Word(ss[i]) }

  lemma WordIsOne(s: string)
    requires Word(s)
    ensures ' ' !in s && '\n' !in s
  {
  }

  lemma FirstAtIs(s: string, sep: char, i: nat)
    requires i < |s| && s[i] == sep && sep !in s[..i]
    ensures FirstAt(s, sep) == i
  {
    assert forall j :: 0 <= j < i ==> s[j] in s[..i];
  }

  lemma PieceFirst(a: string, sep: char, b: string)
    requires sep !in a
    ensures Pieces(a + [sep] + b, sep) == [a] + Pieces(b, sep)
  {
    var s := a + [sep] + b;
    assert s[..|a|] == a && s[|a|] == sep && s[|a| + 1..] == b;
    FirstAtIs(s, sep, |a|);
  }

  lemma PieceOnly(a: string, sep: char)
    requires sep !in a && a != ""
    ensures Pieces(a, sep) == [a]
  {
  }

  lemma TrimKeeps(s: string)
    requires s != "" && !IsSpace(s[0]) && !IsSpace(s[|s| - 1])
    ensures TrimSpace(s) == s && TrimSpace(" " + s) == s
  {
    assert (" " + s)[1..] == s;
    assert TrimLeft(" " + s) == TrimLeft(s) == s;
  }

  /** What reading a name server line adds. */
  lemma NameserverEntry(e: Entries, server: string)
    requires Word(server)
    ensures Entry(e, NameserverText(server)) == e.(nameservers := e.nameservers + [server])
  {
    var line := NameserverText(server);
    assert "nameserver " == NAMESERVER + " ";
    assert line[0] == 'n' && line[|line| - 1] == server[|server| - 1];
    TrimKeeps(line);
    assert line[..|NAMESERVER|] == NAMESERVER && line[|NAMESERVER|..] == " " + server;
    TrimKeeps(server);
  }

  lemma SearchEntry(e: Entries, names: string)
    requires names != "" && !IsSpace(names[0]) && !IsSpace(names[|names| - 1])
    ensures Entry(e, SEARCH + " " + names) == e.(searches := e.searches + [names])
  {
    var line := SEARCH + " " + names;
    assert line[0] == 's' && line[|line| - 1] == names[|names| - 1];
    TrimKeeps(line);
    assert line[..|SEARCH|] == SEARCH && line[|SEARCH|..] == " " + names;
    assert !(NAMESERVER <= line) by { assert NAMESERVER[0] == 'n'; }
    TrimKeeps(names);
  }

  lemma CommentEntry(e: Entries, text: string)
    requires text == "" || text[0] == '#'
    ensures Entry(e, text) == e
  {
    var line := TrimSpace(text);
    if text != "" {
      assert TrimLeft(text) == text;
      TrimRightStart(text);
      assert !(NAMESERVER <= line) by { assert NAMESERVER[0] == 'n'; }
      assert !(SEARCH <= line) by { assert SEARCH[0] == 's'; }
    }
  }

  lemma {:induction false} TrimRightStart(s: string)
    ensures TrimRight(s) <= s
  {
    if s != "" && IsSpace(s[|s| - 1]) { TrimRightStart(s[..|s| - 1]); }
  }

  function NameserverText(server: string): string { "nameserver " + server }

  function NameserverTexts(servers: seq<string>): seq<string> {
    if servers == [] then [] else NameserverTexts(servers[..|servers| - 1]) + [NameserverText(servers[|servers| - 1])]
  }

  lemma TextIsOneLine(server: string)
    requires Word(server)
    ensures '\n' !in NameserverText(server)
  {
    WordIsOne(server);
  }

  lemma OneNameserver(servers: seq<string>, rest: string)
    requires servers != []
    ensures NameserverLines(servers) + rest
         == NameserverLines(servers[..|servers| - 1]) + (NameserverText(servers[|servers| - 1]) + ['\n'] + rest)
  {
    Regroup(NameserverLines(servers[..|servers| - 1]), "nameserver ", servers[|servers| - 1], "\n", rest);
  }

  lemma Regroup(a: string, b: string, c: string, d: string, e: string)
    ensures a + b + c + d + e == a + ((b + c) + d + e)
  {
  }

  /** The name server lines, one by one, and then the rest. */
  lemma {:induction false} NameserverPieces(servers: seq<string>, rest: string)
    requires Words(servers)
    ensures Pieces(NameserverLines(servers) + rest, '\n') == NameserverTexts(servers) + Pieces(rest, '\n')
  {
    if servers == [] {
      assert NameserverLines(servers) + rest == rest;
    } else {
      var pre, last := servers[..|servers| - 1], servers[|servers| - 1];
      var text := NameserverText(last);
      var more := text + ['\n'] + rest;
      OneNameserver(servers, rest);
      NameserverPieces(pre, more);
      TextIsOneLine(last);
      PieceFirst(text, '\n', rest);
      Grouped(NameserverTexts(pre), [text], Pieces(rest, '\n'));
    }
  }

  lemma {:induction false} EntriesAppend(a: seq<string>, b: string)
    ensures EntriesOf(a + [b]) == Entry(EntriesOf(a), b)
  {
    assert (a + [b])[..|a|] == a;
  }

  lemma {:induction false} NameserverEntries(before: seq<string>, servers: seq<string>)
    requires Words(servers)
    ensures EntriesOf(before + NameserverTexts(servers))
         == EntriesOf(before).(nameservers := EntriesOf(before).nameservers + servers)
  {
    if servers == [] {
      assert before + NameserverTexts(servers) == before;
    } else {
      var pre, last := servers[..|servers| - 1], servers[|servers| - 1];
      var lines, text := before + NameserverTexts(pre), NameserverText(last);
      NameserverEntries(before, pre);
      NameserverEntry(EntriesOf(lines), last);
      EntriesAppend(lines, text);
      Grouped(before, NameserverTexts(pre), [text]);
      Grouped(EntriesOf(before).nameservers, pre, [last]);
      assert servers == pre + [last];
    }
  }

  /** The search domains as they stand on their line, after the keyword and its space. */
  function SearchNames(domains: seq<string>): string
    requires domains != []
  {
    Joined(domains)[1..]
  }

  lemma {:induction false} JoinedStarts(domains: seq<string>)
    requires domains != []
    ensures Joined(domains) != "" && Joined(domains)[0] == ' '
    ensures Joined(domains) == " " + SearchNames(domains)
  {
    if |domains| > 1 { JoinedStarts(domains[..|domains| - 1]); }
  }

  /** The names stand between no white space, on one line. */
  ghost predicate Bare(names: string) {
    names != "" && !IsSpace(names[0]) && !IsSpace(names[|names| - 1]) && '\n' !in names
  }

  lemma JoinedStep(domains: seq<string>)
    requires domains != []
    ensures var pre, last := domains[..|domains| - 1], domains[|domains| - 1];
            SearchNames(domains) == if pre == [] then last else SearchNames(pre) + [' '] + last
  {
    var pre, last := domains[..|domains| - 1], domains[|domains| - 1];
    assert Joined(domains) == Joined(pre) + " " + last;
    if pre == [] {
      assert Joined(domains) == " " + last;
    } else {
      JoinedStarts(pre);
    }
  }

  lemma {:induction false} SearchNamesAreBare(domains: seq<string>)
    requires Words(domains) && domains != []
    ensures Bare(SearchNames(domains))
  {
    var pre, last := domains[..|domains| - 1], domains[|domains| - 1];
    JoinedStep(domains);
    assert Word(last) && Words(pre);
    assert forall i :: 0 <= i < |last| ==> last[i] != '\n';
    if pre != [] { SearchNamesAreBare(pre); }
  }

  /** Split at its spaces, the search line gives the domains in order. */
  lemma {:induction false} SearchPieces(domains: seq<string>)
    requires Words(domains) && domains != []
    ensures Pieces(SearchNames(domains), ' ') == domains
  {
    var pre, last := domains[..|domains| - 1], domains[|domains| - 1];
    JoinedStep(domains);
    assert domains == pre + [last] && Words(pre);
    WordIsOne(last);
    if pre == [] {
      PieceOnly(last, ' ');
    } else {
      SearchPieces(pre);
      SearchNamesAreBare(pre);
      PieceLast(SearchNames(pre), ' ', last);
    }
  }

  lemma {:induction false} PieceLast(a: string, sep: char, b: string)
    requires a != "" && a[|a| - 1] != sep && b != "" && sep !in b
    ensures Pieces(a + [sep] + b, sep) == Pieces(a, sep) + [b]
    decreases |a|
  {
    var i := FirstAt(a, sep);
    if i == |a| {
      assert sep !in a by { assert a[..i] == a; }
      PieceFirst(a, sep, b);
      PieceOnly(b, sep);
      PieceOnly(a, sep);
    } else {
      var first, rest := a[..i], a[i + 1..];
      SplitAt(a, i, b);
      PieceFirst(first, sep, rest);
      PieceFirst(first, sep, rest + [sep] + b);
      PieceLast(rest, sep, b);
      Grouped([first], Pieces(rest, sep), [b]);
    }
  }

  lemma SplitAt(a: string, i: nat, b: string)
    requires i < |a|
    ensures a == a[..i] + [a[i]] + a[i + 1..]
    ensures a + [a[i]] + b == a[..i] + [a[i]] + (a[i + 1..] + [a[i]] + b)
  {
  }

  /** The lines before the first name server, and then the rest. */
  lemma TextPieces(title: string, note: string, servers: seq<string>, search: string)
    requires '\n' !in title && '\n' !in note && Words(servers)
    ensures Pieces(title + (['\n'] + note + ['\n'] + ['\n'] + NameserverLines(servers) + search), '\n')
         == [title, note, ""] + NameserverTexts(servers) + Pieces(search, '\n')
  {
    var body := NameserverLines(servers) + search;
    Regrouped(title, note, NameserverLines(servers), search);
    ThreePieces(title, note, body);
    NameserverPieces(servers, search);
    Grouped([title, note, ""], NameserverTexts(servers), Pieces(search, '\n'));
  }

  lemma ThreePieces(title: string, note: string, body: string)
    requires '\n' !in title && '\n' !in note
    ensures Pieces(title + ['\n'] + (note + ['\n'] + ("" + ['\n'] + body)), '\n') == [title, note, ""] + Pieces(body, '\n')
  {
    var last := "" + ['\n'] + body;
    PieceFirst("", '\n', body);
    PieceFirst(note, '\n', last);
    PieceFirst(title, '\n', note + ['\n'] + last);
    Flat(title, note, "", Pieces(body, '\n'));
  }

  lemma Flat(a: string, b: string, c: string, rest: seq<string>)
    ensures [a] + ([b] + ([c] + rest)) == [a, b, c] + rest
  {
  }

  lemma Grouped(a: seq<string>, b: seq<string>, c: seq<string>)
    ensures a + (b + c) == a + b + c
  {
  }

  lemma Regrouped(title: string, note: string, a: string, b: string)
    ensures title + (['\n'] + note + ['\n'] + ['\n'] + a + b) == title + ['\n'] + (note + ['\n'] + ("" + ['\n'] + (a + b)))
  {
  }

  lemma HeadIsPlain()
    ensures '\n' !in OPENING + MARKER && '\n' !in NOTE
    ensures (OPENING + MARKER)[0] == '#' && NOTE[0] == '#'
  {
    var a, b, c, d := "# DO NOT EDIT ", "THIS FILE BY HAND ", "-- CHANGES WILL ", "BE OVERWRITTEN";
    assert NOTE == a + b + c + d && a[0] == '#';
  }

  lemma HeadEntries()
    ensures EntriesOf(HeadLines()) == Entries([], [])
  {
    var title := OPENING + MARKER;
    HeadIsPlain();
    var none: seq<string> := [];
    EntriesAppend(none, title);
    EntriesAppend([title], NOTE);
    EntriesAppend([title, NOTE], "");
    CommentEntry(Entries([], []), title);
    CommentEntry(Entries([], []), NOTE);
    CommentEntry(Entries([], []), "");
    assert none + [title] == [title] && [title] + [NOTE] == [title, NOTE] && [title, NOTE] + [""] == [title, NOTE, ""];
  }

  /**
   Reading a written configuration back gives its name servers, in order, and
   all its search domains as one entry, which split at its spaces gives them in
   order. So the reader gives the search domains back exactly if there is at
   most one.
   */
  lemma ReadsBackExactly(servers: seq<string>, domains: seq<string>)
    requires Words(servers) && Words(domains)
    ensures var e := EntriesOf(Pieces(Render(servers, domains), '\n'));
            && e.nameservers == servers
            && (domains == [] ==> e.searches == [])
            && (domains != [] ==> |e.searches| == 1 && Pieces(e.searches[0], ' ') == domains)
            && (e.searches == domains <==> |domains| <= 1)
  {
    var lines := HeadLines() + NameserverTexts(servers);
    RenderPieces(servers, domains);
    HeadEntries();
    NameserverEntries(HeadLines(), servers);
    assert EntriesOf(lines) == Entries(servers, []) by { assert [] + servers == servers; }
    if domains == [] {
      assert lines + Pieces(SearchLine(domains), '\n') == lines;
    } else {
      SearchReadsBack(lines, domains);
    }
  }

  function HeadLines(): seq<string> { [OPENING + MARKER, NOTE, ""] }

  lemma RenderPieces(servers: seq<string>, domains: seq<string>)
    requires Words(servers)
    ensures Pieces(Render(servers, domains), '\n')
         == HeadLines() + NameserverTexts(servers) + Pieces(SearchLine(domains), '\n')
  {
    HeadIsPlain();
    TextPieces(OPENING + MARKER, NOTE, servers, SearchLine(domains));
  }

  lemma SearchReadsBack(lines: seq<string>, domains: seq<string>)
    requires Words(domains) && domains != [] && EntriesOf(lines).searches == []
    ensures var e := EntriesOf(lines + Pieces(SearchLine(domains), '\n'));
            && e.nameservers == EntriesOf(lines).nameservers && |e.searches| == 1 && Pieces(e.searches[0], ' ') == domains
            && (e.searches == domains <==> |domains| == 1)
  {
    var names := SearchNames(domains);
    SearchPieces(domains);
    SearchNamesAreBare(domains);
    JoinedStarts(domains);
    var text := SEARCH + " " + names;
    assert SearchLine(domains) == text + ['\n'] + "";
    assert '\n' !in text;
    PieceFirst(text, '\n', "");
    assert Pieces(SearchLine(domains), '\n') == [text];
    EntriesAppend(lines, text);
    SearchEntry(EntriesOf(lines), names);
    if |domains| == 1 {
      PieceOnlyBack(names, domains[0]);
    }
  }

  lemma PieceOnlyBack(s: string, word: string)
    requires s != "" && !IsSpace(s[|s| - 1]) && Pieces(s, ' ') == [word]
    ensures s == word
  {
  }

  // ---------------------------------------------------------------------
  // What each operation does to the files
  // ---------------------------------------------------------------------

  /** Whether /etc/resolv.conf is there and Tailscale's. */
  predicate OwnedByTailscale(fs: Files) { Resolv in fs && Owned(fs[Resolv]) }

  function Renamed(fs: Files, a: Path, b: Path): Files
    requires a in fs
  {
    (fs - {a})[b := fs[a]]
  }

  function BackedUp(fs: Files): Files {
    if Resolv !in fs then fs - {Backup}
    else if Owned(fs[Resolv]) then fs
    else Renamed(fs, Resolv, Backup)
  }

  /** The code's existence test looks at an error that is always nil, so a missing file counts as present. */
  function Restored(fs: Files): Files {
    if Backup !in fs then fs
    else if !OwnedByTailscale(fs) then fs - {Backup}
    else Renamed(fs, Backup, Resolv)
  }

  function Written(fs: Files, suffix: nat, data: string): Files {
    (fs - {Tmp(suffix)})[Resolv := File(data, true)]
  }

  function DnsSet(fs: Files, c: OSConfig, suffix: nat): Files {
    if IsZero(c) then Restored(fs)
    else Written(BackedUp(fs), suffix, Render(c.nameservers, c.searchDomains))
  }

  function Closed(fs: Files): Files {
    var fs := fs - {TailscaleConf};
    if Backup !in fs then fs
    else if Resolv in fs && !Owned(fs[Resolv]) then fs - {Backup}
    else Renamed(fs, Backup, Resolv)
  }

  // ---------------------------------------------------------------------
  // The manager
  // ---------------------------------------------------------------------

  /** A file system that reads and writes whole files. */
  class WholeFileFS {
    var files: Files

    method Stat(name: Path) returns (r: Result<bool, Error>)
      ensures r == if name in files then Ok(files[name].isRegular) else Err(NotExist)
    {
      if name in files { r := Ok(files[name].isRegular); } else { r := Err(NotExist); }
    }

    method ReadFile(name: Path) returns (r: Result<string, Error>)
      ensures r == if name in files then Ok(files[name].contents) else Err(NotExist)
    {
      if name in files { r := Ok(files[name].contents); } else { r := Err(NotExist); }
    }

    method Rename(a: Path, b: Path) returns (r: Result<(), Error>)
      modifies this
      ensures a in old(files) ==> r == Ok(()) && files == Renamed(old(files), a, b)
      ensures a !in old(files) ==> r == Err(NotExist) && files == old(files)
    {
      if a !in files { return Err(NotExist); }
      var f := files[a];
      files := files - {a};
      files := files[b := f];
      r := Ok(());
    }

    method Remove(name: Path) returns (r: Result<(), Error>)
      modifies this
      ensures files == old(files) - {name}
      ensures r.Ok? == (name in old(files))
    {
      r := if name in files then Ok(()) else Err(NotExist);
      files := files - {name};
    }

    method WriteFile(name: Path, contents: string)
      modifies this
      ensures files == old(files)[name := File(contents, true)]
    {
      files := files[name := File(contents, true)];
    }
  }

  class DirectManager {
    const fs: WholeFileFS

    constructor (fs: WholeFileFS)
      ensures this.fs == fs
    {
      this.fs := fs;
    }

    method IsOwnedByTailscale() returns (owned: bool, err: Option<Error>)
      ensures err == None
      ensures owned <==> Resolv in fs.files && fs.files[Resolv].isRegular
                         && exists i :: 0 <= i <= |fs.files[Resolv].contents| && OccursAt(fs.files[Resolv].contents, MARKER, i)
    {
      var st := fs.Stat(Resolv);
      if st.Err? || !st.value { return false, None; }
      var bs := fs.ReadFile(Resolv);
      return Contains(bs.value, MARKER), None;
    }

    method BackupConfig() returns (r: Result<(), Error>)
      modifies fs
      ensures r.Ok? && fs.files == BackedUp(old(fs.files))
    {
      var st := fs.Stat(Resolv);
      if st.Err? {
        var _ := fs.Remove(Backup);
        return Ok(());
      }
      var owned, _ := IsOwnedByTailscale();
      if owned { return Ok(()); }
      r := fs.Rename(Resolv, Backup);
    }

    method RestoreBackup() returns (r: Result<(), Error>)
      modifies fs
      ensures r.Ok? && fs.files == Restored(old(fs.files))
    {
      var st := fs.Stat(Backup);
      if st.Err? { return Ok(()); }
      var owned, err := IsOwnedByTailscale();
      var _ := fs.Stat(Resolv);  // its error has a scope of its own
      var resolvConfExists := err != Some(NotExist);
      if resolvConfExists && !owned {
        var _ := fs.Remove(Backup);
        return Ok(());
      }
      r := fs.Rename(Backup, Resolv);
    }

    method AtomicWriteFile(data: string, suffix: nat) returns (r: Result<(), Error>)
      modifies fs
      ensures r.Ok? && fs.files == Written(old(fs.files), suffix, data)
    {
      var tmpName := Tmp(suffix);
      fs.WriteFile(tmpName, data);
      r := fs.Rename(tmpName, Resolv);
      var _ := fs.Remove(tmpName);
      assert fs.files == Written(old(fs.files), suffix, data);
    }

    method SetDNS(c: OSConfig, suffix: nat) returns (r: Result<(), Error>)
      modifies fs
      ensures r.Ok? && fs.files == DnsSet(old(fs.files), c, suffix)
    {
      if IsZero(c) {
        r := RestoreBackup();
      } else {
        r := BackupConfig();
        var data := WriteResolvConf(c.nameservers, c.searchDomains);
        r := AtomicWriteFile(data, suffix);
      }
    }

    /** The bytes from which the base configuration is read. */
    method BaseConfigBytes() returns (r: Result<string, Error>)
      ensures r == BaseConfig(fs.files)
    {
      var owned, _ := IsOwnedByTailscale();
      var fileToRead := Resolv;
      if owned { fileToRead := Backup; }
      r := fs.ReadFile(fileToRead);
    }

    method Close() returns (r: Result<(), Error>)
      modifies fs
      ensures r.Ok? && fs.files == Closed(old(fs.files))
    {
      var _ := fs.Remove(TailscaleConf);
      var st := fs.Stat(Backup);
      if st.Err? { return Ok(()); }
      var owned, _ := IsOwnedByTailscale();
      var st2 := fs.Stat(Resolv);
      var resolvConfExists := st2.Ok?;
      if resolvConfExists && !owned {
        var _ := fs.Remove(Backup);
        return Ok(());
      }
      r := fs.Rename(Backup, Resolv);
    }
  }

  function BaseConfig(fs: Files): Result<string, Error> {
    var name := if OwnedByTailscale(fs) then Backup else Resolv;
    if name in fs then Ok(fs[name].contents) else Err(NotExist)
  }

  // ---------------------------------------------------------------------
  // One call
  // ---------------------------------------------------------------------

  /** The given file is back in place, and no backup is left. */
  predicate GivenBack(fs: Files, f: File) { Resolv in fs && fs[Resolv] == f && Backup !in fs }

  /** SetDNS with a zero configuration gives the backup back exactly when resolv.conf is there and is not another foreign file. */
  lemma RestoreExactly(fs: Files, c: OSConfig, suffix: nat)
    requires Backup in fs && IsZero(c)
    ensures GivenBack(DnsSet(fs, c, suffix), fs[Backup]) <==>
            Resolv in fs && (Owned(fs[Resolv]) || fs[Resolv] == fs[Backup])
  {
    if Resolv in fs && fs[Resolv] == fs[Backup] && !Owned(fs[Resolv]) {
      assert DnsSet(fs, c, suffix) == fs - {Backup};
    }
  }

  /** Close tests the right error: it gives the backup back also when resolv.conf is missing. */
  lemma CloseExactly(fs: Files)
    requires Backup in fs
    ensures GivenBack(Closed(fs), fs[Backup]) <==>
            Resolv !in fs || Owned(fs[Resolv]) || fs[Resolv] == fs[Backup]
  {
    var clean := fs - {TailscaleConf};
    assert Resolv in clean <==> Resolv in fs;
  }

  /** So the two disagree, and SetDNS destroys the only copy, exactly when resolv.conf is missing. */
  lemma RestoreLosesMissing(fs: Files, c: OSConfig, suffix: nat)
    requires Backup in fs && IsZero(c)
    ensures Restored(fs) - {TailscaleConf} != Closed(fs) <==> Resolv !in fs
    ensures Resolv !in fs ==> Resolv !in DnsSet(fs, c, suffix) && Backup !in DnsSet(fs, c, suffix)
  {
    var clean := fs - {TailscaleConf};
    assert Resolv in clean <==> Resolv in fs;
    if Resolv in fs && Owned(fs[Resolv]) {
      assert Renamed(fs, Backup, Resolv) - {TailscaleConf} == Renamed(clean, Backup, Resolv);
    } else if Resolv in fs {
      assert fs - {Backup} - {TailscaleConf} == clean - {Backup};
    } else {
      assert Resolv in Closed(fs);
    }
  }

  /** A file system on which the restore loses the user's configuration. */
  lemma LosingExample()
    ensures var fs: Files := map[Backup := File("nameserver 10.0.0.1\n", true)];
            && !GivenBack(DnsSet(fs, OSConfig([], [], []), 0), fs[Backup])
            && GivenBack(Closed(fs), fs[Backup])
  {
    var fs: Files := map[Backup := File("nameserver 10.0.0.1\n", true)];
    RestoreExactly(fs, OSConfig([], [], []), 0);
    CloseExactly(fs);
  }

  /**
   Setting anything but the empty configuration takes resolv.conf over: a
   foreign one is then the backup, Tailscale's own leaves the backup alone, and
   with none there is no backup. The file written says what was set.
   */
  lemma TakeoverExactly(fs: Files, c: OSConfig, suffix: nat)
    requires c.nameservers != [] || c.searchDomains != [] || c.matchDomains != []
    ensures var t := DnsSet(fs, c, suffix);
            && Resolv in t && Owned(t[Resolv])
            && (Resolv !in fs ==> Backup !in t)
            && (Resolv in fs && !Owned(fs[Resolv]) ==> Backup in t && t[Backup] == fs[Resolv])
            && (Resolv in fs && Owned(fs[Resolv]) ==> (Backup in t <==> Backup in fs) && (Backup in fs ==> t[Backup] == fs[Backup]))
            && (Words(c.nameservers) && Words(c.searchDomains) ==>
                  var e := EntriesOf(Pieces(t[Resolv].contents, '\n'));
                  e.nameservers == c.nameservers && (c.searchDomains == [] ==> e.searches == [])
                  && (c.searchDomains != [] ==> |e.searches| == 1 && Pieces(e.searches[0], ' ') == c.searchDomains))
  {
    RenderIsOwned(c.nameservers, c.searchDomains);
    if Words(c.nameservers) && Words(c.searchDomains) {
      ReadsBackExactly(c.nameservers, c.searchDomains);
    }
  }

  /** No call touches a path that is not its own, and no temporary file stays behind. */
  lemma OnlyOwnPaths(fs: Files, c: OSConfig, suffix: nat, p: Path)
    requires !p.Resolv? && !p.Backup?
    ensures p != Tmp(suffix) ==> (p in DnsSet(fs, c, suffix) <==> p in fs)
    ensures p != Tmp(suffix) && p in fs ==> DnsSet(fs, c, suffix)[p] == fs[p]
    ensures !IsZero(c) ==> Tmp(suffix) !in DnsSet(fs, c, suffix)
    ensures p in Closed(fs) <==> p in fs && !p.TailscaleConf?
    ensures p in Closed(fs) ==> Closed(fs)[p] == fs[p]
  {
    var backed := BackedUp(fs);
    assert p in backed <==> p in fs;
  }

  // ---------------------------------------------------------------------
  // Whole runs
  // ---------------------------------------------------------------------

  datatype Step =
    | Set(c: OSConfig, suffix: nat)
    | CloseManager
    | Overwrite(f: File)  // by another program
    | Delete              // by another program

  /**
   The files; the last resolv.conf that was not Tailscale's; and whether that
   is still to be had. It is given up when another program deletes it while it
   is in place, or when SetDNS finds no resolv.conf at all.
   */
  datatype State = State(fs: Files, last: File, kept: bool)

  predicate Enabled(e: Step) { e.Overwrite? ==> !Owned(e.f) }

  function Apply(s: State, e: Step): State {
    match e
    case Set(c, suffix) => State(DnsSet(s.fs, c, suffix), s.last, s.kept && Resolv in s.fs)
    case CloseManager => State(Closed(s.fs), s.last, s.kept)
    case Overwrite(f) => State(s.fs[Resolv := f], f, true)
    case Delete => State(s.fs - {Resolv}, s.last, s.kept && (Resolv in s.fs ==> Owned(s.fs[Resolv])))
  }

  predicate ValidRun(run: seq<Step>) { forall i :: 0 <= i < |run| ==> Enabled(run[i]) }

  function Exec(s: State, run: seq<Step>): State {
    if run == [] then s else Apply(Exec(s, run[..|run| - 1]), run[|run| - 1])
  }

  /** A foreign resolv.conf, with or without an old backup; or Tailscale's, with the foreign one backed up. */
  predicate Init(s: State) { s.kept && Resolv in s.fs && Held(s.fs, s.last) }

  /** The foreign file is in place, or it is in the backup and no foreign file is in place. */
  predicate Held(fs: Files, last: File) {
    && !Owned(last)
    && if Resolv in fs && !Owned(fs[Resolv]) then fs[Resolv] == last
       else Backup in fs && fs[Backup] == last
  }

  predicate Inv(s: State) { s.kept ==> Held(s.fs, s.last) }

  lemma StepKeepsInv(s: State, e: Step)
    requires Inv(s) && Enabled(e)
    ensures Inv(Apply(s, e))
  {
    match e
    case Set(c, suffix) =>
      RenderIsOwned(c.nameservers, c.searchDomains);
    case CloseManager =>
      var clean := s.fs - {TailscaleConf};
      assert Resolv in clean <==> Resolv in s.fs;
      assert Backup in clean <==> Backup in s.fs;
    case Overwrite(f) =>
    case Delete =>
  }

  lemma {:induction false} RunKeepsInv(s: State, run: seq<Step>)
    requires Inv(s) && ValidRun(run)
    ensures Inv(Exec(s, run))
  {
    if run != [] {
      RunKeepsInv(s, run[..|run| - 1]);
      StepKeepsInv(Exec(s, run[..|run| - 1]), run[|run| - 1]);
    }
  }

  /** A held file is given back: by Close always, by SetDNS exactly when some resolv.conf is there. */
  lemma HeldIsGivenBack(fs: Files, last: File, c: OSConfig, suffix: nat)
    requires Held(fs, last) && IsZero(c)
    ensures GivenBack(Closed(fs), last)
    ensures GivenBack(DnsSet(fs, c, suffix), last) <==> Resolv in fs
  {
    var clean := fs - {TailscaleConf};
    assert Resolv in clean <==> Resolv in fs;
    assert Backup in clean <==> Backup in fs;
  }

  /** After any run in which the last foreign file was not given up, Close returns it, and SetDNS does unless resolv.conf is missing. */
  lemma LastForeignReturns(s: State, run: seq<Step>, c: OSConfig, suffix: nat)
    requires Init(s) && ValidRun(run) && IsZero(c)
    ensures var t := Exec(s, run);
            && (t.kept ==> GivenBack(Closed(t.fs), t.last))
            && (t.kept ==> (GivenBack(DnsSet(t.fs, c, suffix), t.last) <==> Resolv in t.fs))
  {
    RunKeepsInv(s, run);
    var t := Exec(s, run);
    if t.kept { HeldIsGivenBack(t.fs, t.last, c, suffix); }
  }

  lemma {:induction false} NothingGivenUp(s: State, run: seq<Step>)
    requires Init(s) && ValidRun(run) && Delete !in run
    ensures Init(Exec(s, run))
  {
    if run != [] {
      var before := run[..|run| - 1];
      NothingGivenUp(s, before);
      assert run[|run| - 1] in run;
      StepKeepsInv(Exec(s, before), run[|run| - 1]);
    }
  }

  /**
   Without deletions, whatever the mix of SetDNS, Close and overwrites: the base
   configuration is always read from the last foreign file, and both ways of
   stopping put that file back and leave no backup.
   */
  lemma RestoreWorks(s: State, run: seq<Step>, c: OSConfig, suffix: nat)
    requires Init(s) && ValidRun(run) && IsZero(c)
    requires Delete !in run
    ensures var t := Exec(s, run);
            && BaseConfig(t.fs) == Ok(t.last.contents)
            && GivenBack(DnsSet(t.fs, c, suffix), t.last)
            && GivenBack(Closed(t.fs), t.last)
  {
    NothingGivenUp(s, run);
    var t := Exec(s, run);
    HeldIsGivenBack(t.fs, t.last, c, suffix);
  }

  /** The last foreign file is the run's last overwrite, or else the one at the start. */
  lemma {:induction false} LastIsLastOverwrite(s: State, run: seq<Step>, i: nat)
    requires i <= |run|
    requires forall j :: i <= j < |run| ==> !run[j].Overwrite?
    ensures i == 0 ==> Exec(s, run).last == s.last
    ensures i > 0 && run[i - 1].Overwrite? ==> Exec(s, run).last == run[i - 1].f
  {
    if i < |run| {
      var before := run[..|run| - 1];
      assert forall j :: i <= j < |before| ==> before[j] == run[j];
      LastIsLastOverwrite(s, before, i);
    }
  }
}
