/** The text commands of the key-value server: how they are written, read back and executed. */
module Commands {
  import opened Common

  datatype Command = Command(op: string, key: string, value: string)

  /** isspace in the "C" locale. */
  predicate IsSpace(c: char) {
    c == ' ' || '\t' <= c <= '\r'
  }

  /** A string that a stream extraction reads back whole. */
  predicate IsWord(s: string) {
    s != "" && forall i :: 0 <= i < |s| ==> !IsSpace(s[i])
  }

  // ---------- stream extraction ----------

  function SkipSpace(s: string): (r: string)
    ensures |r| <= |s|
    ensures r != "" ==> !IsSpace(r[0])
  {
    if s != "" && IsSpace(s[0]) then SkipSpace(s[1..]) else s
  }

  /** The longest prefix without white space. */
  function LeadingWord(s: string): (w: string)
    ensures |w| <= |s|
    ensures s != "" && !IsSpace(s[0]) ==> w != ""
  {
    if s == "" || IsSpace(s[0]) then "" else [s[0]] + LeadingWord(s[1..])
  }

  /** ss >> word: None when only white space is left, else the word and the rest of the stream. */
  function Extract(s: string): Option<(string, string)> {
    var t := SkipSpace(s);
    if t == "" then None else Some((LeadingWord(t), t[|LeadingWord(t)|..]))
  }

  function Parse(s: string): Option<Command> {
    match Extract(s)
    case None => None
    case Some((op, s1)) =>
      match Extract(s1)
      case None => None
      case Some((key, s2)) =>
        match Extract(s2)
        case None => None
        case Some((value, _)) => Some(Command(op, key, value))
  }

  function Encode(c: Command): string {
    c.op + " " + c.key + " " + c.value
  }

  // ---------- the reference: all words of a string ----------

  /** The maximal runs of non-space characters, read one character at a time. */
  function Words(s: string): (ws: seq<string>)
    ensures s != "" && !IsSpace(s[0]) ==> ws != []
  {
    if s == "" then []
    else
      var ws := Words(s[1..]);
      if IsSpace(s[0]) then ws
      else if |s| == 1 || IsSpace(s[1]) then [[s[0]]] + ws
      else [[s[0]] + ws[0]] + ws[1..]
  }

  lemma {:induction false} WordsAreWords(s: string, k: nat)
    requires k < |Words(s)|
    ensures IsWord(Words(s)[k])
  {
    var ws := Words(s[1..]);
    if IsSpace(s[0]) {
      WordsAreWords(s[1..], k);
    } else if |s| == 1 || IsSpace(s[1]) {
      if k > 0 {
        WordsAreWords(s[1..], k - 1);
      }
    } else {
      WordsAreWords(s[1..], k);
    }
  }

  lemma {:induction false} WordIsItsOnlyWord(w: string)
    requires IsWord(w)
    ensures Words(w) == [w]
  {
    assert [w[0]] + w[1..] == w;
    if |w| > 1 {
      assert w[1] == w[1..][0];
      WordIsItsOnlyWord(w[1..]);
    } else {
      assert w[1..] == "" && [w[0]] == w;
      assert Words(w) == [[w[0]]] + Words("");
    }
  }

  /** A separating space splits the words of a string in two. */
  lemma {:induction false} WordsOfJoin(a: string, c: char, b: string)
    requires IsSpace(c)
    ensures Words(a + [c] + b) == Words(a) + Words(b)
  {
    var s := a + [c] + b;
    if a == "" {
      assert s[1..] == b;
    } else {
      assert s[1..] == a[1..] + [c] + b;
      WordsOfJoin(a[1..], c, b);
    }
  }

  lemma {:induction false} SkipSpaceKeepsWords(s: string)
    ensures Words(SkipSpace(s)) == Words(s)
  {
    if s != "" && IsSpace(s[0]) {
      SkipSpaceKeepsWords(s[1..]);
    }
  }

  lemma {:induction false} LeadingWordIsFirst(s: string)
    requires s != "" && !IsSpace(s[0])
    ensures Words(s) == [LeadingWord(s)] + Words(s[|LeadingWord(s)|..])
  {
    if |s| > 1 && !IsSpace(s[1]) {
      LeadingWordIsFirst(s[1..]);
      var w := LeadingWord(s[1..]);
      assert s[1..][|w|..] == s[|w| + 1..];
    } else {
      assert LeadingWord(s[1..]) == "";
      assert LeadingWord(s) == [s[0]];
    }
  }

  /** One extraction takes exactly the first word. */
  lemma ExtractTakesFirstWord(s: string)
    ensures Extract(s).None? <==> Words(s) == []
    ensures Extract(s).Some? ==> Words(s) == [Extract(s).value.0] + Words(Extract(s).value.1)
  {
    SkipSpaceKeepsWords(s);
    if SkipSpace(s) != "" {
      LeadingWordIsFirst(SkipSpace(s));
    }
  }

  // ---------- main results ----------

  /** Reading a command takes the first three words of any string, and fails when there are fewer. */
  lemma ParseTakesThreeWords(s: string)
    ensures var ws := Words(s);
            Parse(s) == if |ws| >= 3 then Some(Command(ws[0], ws[1], ws[2])) else None
  {
    ExtractTakesFirstWord(s);
    if Extract(s).Some? {
      var s1 := Extract(s).value.1;
      ExtractTakesFirstWord(s1);
      if Extract(s1).Some? {
        ExtractTakesFirstWord(Extract(s1).value.1);
      }
    }
  }

  lemma WordsOfEncode(c: Command)
    ensures Words(Encode(c)) == Words(c.op) + Words(c.key) + Words(c.value)
  {
    WordsOfJoin(c.op + " " + c.key, ' ', c.value);
    WordsOfJoin(c.op, ' ', c.key);
  }

  /** Writing and reading back gives the same command exactly when its three parts are single words. */
  lemma RoundTripExactly(c: Command)
    ensures Parse(Encode(c)) == Some(c) <==> IsWord(c.op) && IsWord(c.key) && IsWord(c.value)
  {
    WordsOfEncode(c);
    ParseTakesThreeWords(Encode(c));
    var ws := Words(Encode(c));
    if IsWord(c.op) && IsWord(c.key) && IsWord(c.value) {
      WordIsItsOnlyWord(c.op);
      WordIsItsOnlyWord(c.key);
      WordIsItsOnlyWord(c.value);
    }
    if |ws| >= 3 {
      WordsAreWords(Encode(c), 0);
      WordsAreWords(Encode(c), 1);
      WordsAreWords(Encode(c), 2);
    }
  }

  /** Tab, line feed, vertical tab, form feed, carriage return and space separate the parts all the same. */
  lemma AnyWhiteSpaceSeparates(c: Command, first: char, second: char)
    requires IsWord(c.op) && IsWord(c.key) && IsWord(c.value)
    requires first as int in {9, 10, 11, 12, 13, 32} && second as int in {9, 10, 11, 12, 13, 32}
    ensures Parse(c.op + [first] + c.key + [second] + c.value) == Some(c)
  {
    var s := c.op + [first] + c.key + [second] + c.value;
    WordsOfJoin(c.op + [first] + c.key, second, c.value);
    WordsOfJoin(c.op, first, c.key);
    WordIsItsOnlyWord(c.op);
    WordIsItsOnlyWord(c.key);
    WordIsItsOnlyWord(c.value);
    ParseTakesThreeWords(s);
  }

  // ---------- execution ----------

  type Database = map<string, string>

  function Lookup(db: Database, key: string): string {
    if key in db then db[key] else ""
  }

  /** put overwrites, append concatenates to what is there; any other command changes nothing. */
  function Execute(db: Database, c: Command): Database {
    if c.op == "put" then db[c.key := c.value]
    else if c.op == "append" then db[c.key := Lookup(db, c.key) + c.value]
    else db
  }

  function ExecuteText(db: Database, s: string): Database {
    match Parse(s)
    case None => db
    case Some(c) => Execute(db, c)
  }

  function ExecuteAll(db: Database, cmds: seq<string>): Database {
    if cmds == [] then db else ExecuteText(ExecuteAll(db, cmds[..|cmds| - 1]), cmds[|cmds| - 1])
  }

  lemma ExecuteOneMore(db: Database, cmds: seq<string>, s: string)
    ensures ExecuteAll(db, cmds + [s]) == ExecuteText(ExecuteAll(db, cmds), s)
  {
    assert (cmds + [s])[..|cmds|] == cmds;
  }

  // ---------- what a history of texts means ----------

  /** The text is a put or an append of the key: its second word, with a third word for the value. */
  predicate WritesKey(s: string, key: string) {
    |Words(s)| >= 3 && Words(s)[1] == key && (Words(s)[0] == "put" || Words(s)[0] == "append")
  }

  /** The reference: a key's value depends on the texts that write it alone, from the last put on. */
  function ValueOf(db: Database, texts: seq<string>, key: string): string {
    if texts == [] then Lookup(db, key)
    else
      var before, s := ValueOf(db, texts[..|texts| - 1], key), texts[|texts| - 1];
      if !WritesKey(s, key) then before
      else if Words(s)[0] == "put" then Words(s)[2]
      else before + Words(s)[2]
  }

  lemma TextGivesValue(db: Database, s: string, key: string)
    ensures Lookup(ExecuteText(db, s), key) ==
            if !WritesKey(s, key) then Lookup(db, key)
            else if Words(s)[0] == "put" then Words(s)[2]
            else Lookup(db, key) + Words(s)[2]
    ensures key in ExecuteText(db, s) <==> key in db || WritesKey(s, key)
  {
    hide Parse, Words;
    ParseTakesThreeWords(s);
  }

  /** Executing any texts, malformed ones among them, gives every key its reference value, and no other key any. */
  lemma {:induction false} HistoryGivesValues(db: Database, texts: seq<string>, key: string)
    ensures Lookup(ExecuteAll(db, texts), key) == ValueOf(db, texts, key)
    ensures key in ExecuteAll(db, texts) <==> key in db || exists i :: 0 <= i < |texts| && WritesKey(texts[i], key)
  {
    hide ExecuteText, WritesKey, Words, Lookup;
    if texts != [] {
      var init, s := texts[..|texts| - 1], texts[|texts| - 1];
      HistoryGivesValues(db, init, key);
      TextGivesValue(ExecuteAll(db, init), s, key);
      assert forall i :: 0 <= i < |init| ==> init[i] == texts[i];
    }
  }

  // ---------- what a history of well-formed commands means ----------

  function EncodeAll(cs: seq<Command>): seq<string> {
    seq(|cs|, i requires 0 <= i < |cs| => Encode(cs[i]))
  }

  predicate AreWords(cs: seq<Command>) {
    forall c <- cs :: IsWord(c.op) && IsWord(c.key) && IsWord(c.value)
  }

  /** The reference: a key's value depends on the commands for that key alone, from its last put on. */
  function ValueOfCommands(db: Database, cs: seq<Command>, key: string): string {
    if cs == [] then Lookup(db, key)
    else
      var before, c := ValueOfCommands(db, cs[..|cs| - 1], key), cs[|cs| - 1];
      if c.key != key then before
      else if c.op == "put" then c.value
      else if c.op == "append" then before + c.value
      else before
  }

  /** Logging commands as text and executing the text gives every key its reference value. */
  lemma {:induction false} CommandsGiveValues(db: Database, cs: seq<Command>, key: string)
    requires AreWords(cs)
    ensures Lookup(ExecuteAll(db, EncodeAll(cs)), key) == ValueOfCommands(db, cs, key)
  {
    hide Parse, Encode, IsWord, Words;
    if cs == [] {
      assert EncodeAll(cs) == [];
    } else {
      var init, c := cs[..|cs| - 1], cs[|cs| - 1];
      assert AreWords(init) && c in cs;
      CommandsGiveValues(db, init, key);
      CommandsGiveValues(db, init, c.key);
      assert EncodeAll(cs) == EncodeAll(init) + [Encode(c)];
      ExecuteOneMore(db, EncodeAll(init), Encode(c));
      RoundTripExactly(c);
    }
  }

  /** The database a server starts with. */
  const INITIAL_DB: Database := map["hello" := "world"]
}
