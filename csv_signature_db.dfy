/**
  The tab-separated signature database: each line of the file holds a
  function's checksum and size in hexadecimal, its symbol, an optional object
  location and an object name. Loading reads the lines with the standard
  stream operations and stores each parsed line in the database under its
  checksum; saving writes one line per entry in checksum order.
 */
module CSVSignatureDB {
  import opened Wrappers
  import opened Text

  /** One known function: its symbol, size and where it comes from. */
  datatype DBFunc = DBFunc(name: string, size: u32, objectLocation: string, objectName: string)

  /** The database, keyed by checksum. */
  type FuncDB = map<u32, DBFunc>

  // ---------------------------------------------------------------------
  // The input stream
  // ---------------------------------------------------------------------

  /** A string stream: the text not yet read, and the end-of-file and failure flags. */
  datatype Stream = Stream(rest: string, eof: bool, fail: bool)

  predicate Good(st: Stream)
  {
    !st.eof && !st.fail
  }

  /** A fresh stream over a text. */
  function Open(text: string): Stream
  {
    Stream(text, false, false)
  }

  /** The characters `isspace` accepts in the C locale. */
  predicate IsSpace(c: char)
  {
    c == ' ' || c == '\t' || c == '\n' || c == '\r' || c == 11 as char || c == 12 as char
  }

  /** How far the whitespace skipped before a number extends. */
  function SkipSpace(s: string, i: nat): (j: nat)
    requires i <= |s|
    ensures i <= j <= |s|
    ensures forall k :: i <= k < j ==> IsSpace(s[k])
    ensures j < |s| ==> !IsSpace(s[j])
    decreases |s| - i
  {
    if i < |s| && IsSpace(s[i]) then SkipSpace(s, i + 1) else i
  }

  /** Where the run of hexadecimal digits starting at i ends. */
  function HexRunEnd(s: string, i: nat): (j: nat)
    requires i <= |s|
    ensures i <= j <= |s|
    ensures forall k :: i <= k < j ==> IsHexDigit(s[k])
    ensures j < |s| ==> !IsHexDigit(s[j])
    decreases |s| - i
  {
    if i < |s| && IsHexDigit(s[i]) then HexRunEnd(s, i + 1) else i
  }

  /** Where the first delim at or after i is, or the length when there is none. */
  function FindFrom(s: string, i: nat, delim: char): (j: nat)
    requires i <= |s|
    ensures i <= j <= |s|
    ensures forall k :: i <= k < j ==> s[k] != delim
    ensures j < |s| ==> s[j] == delim
    decreases |s| - i
  {
    if i < |s| && s[i] != delim then FindFrom(s, i + 1, delim) else i
  }

  /** Each of the three scans stops at the first character that ends it. */
  lemma {:induction false} SkipSpaceIs(s: string, i: nat, j: nat)
    requires i <= j <= |s|
    requires forall k :: i <= k < j ==> IsSpace(s[k])
    requires j < |s| ==> !IsSpace(s[j])
    ensures SkipSpace(s, i) == j
    decreases j - i
  {
    if i < j {
      SkipSpaceIs(s, i + 1, j);
    }
  }

  lemma {:induction false} HexRunEndIs(s: string, i: nat, j: nat)
    requires i <= j <= |s|
    requires forall k :: i <= k < j ==> IsHexDigit(s[k])
    requires j < |s| ==> !IsHexDigit(s[j])
    ensures HexRunEnd(s, i) == j
    decreases j - i
  {
    if i < j {
      HexRunEndIs(s, i + 1, j);
    }
  }

  lemma {:induction false} FindFromIs(s: string, i: nat, delim: char, j: nat)
    requires i <= j <= |s|
    requires forall k :: i <= k < j ==> s[k] != delim
    requires j < |s| ==> s[j] == delim
    ensures FindFrom(s, i, delim) == j
    decreases j - i
  {
    if i < j {
      FindFromIs(s, i + 1, delim, j);
    }
  }

  /**
    `stream >> std::hex >> x` for a u32 x: skip whitespace, read the maximal
    run of hexadecimal digits; fail when the stream is not good, when only
    whitespace is left, when there is no digit or when the value does not fit.
    Reaching the end of the text sets end-of-file.
   */
  function ExtractHex(st: Stream): (r: (Stream, u32))
    ensures |r.0.rest| <= |st.rest|
    ensures !r.0.fail ==> Good(st) && |r.0.rest| < |st.rest|
  {
    if !Good(st) then (st.(fail := true), 0)
    else
      var s := st.rest;
      var k := SkipSpace(s, 0);
      if k == |s| then (Stream([], true, true), 0)
      else
        var e := HexRunEnd(s, k);
        if e == k then (Stream(s[k..], false, true), 0)
        else
          var v := HexValue(s[k..e]);
          if v < 0x1_0000_0000 then (Stream(s[e..], e == |s|, false), v)
          else (Stream(s[e..], e == |s|, true), 0xFFFF_FFFF)
  }

  /**
    `std::getline(stream, str, delim)`: when the stream is good, the text up
    to the next delim (which is consumed), or to the end, setting end-of-file
    and failing if nothing at all was extracted; when it is not good, fail and
    leave str as it was.
   */
  function GetLine(st: Stream, delim: char, str: string): (r: (Stream, string))
    ensures |r.0.rest| <= |st.rest|
    ensures r.0.fail ==> r.1 == str || r.1 == []
    ensures !r.0.fail ==> Good(st) && Measure(r.0) < Measure(st)
    ensures !r.0.fail ==> delim !in r.1
  {
    if !Good(st) then (st.(fail := true), str)
    else
      var s := st.rest;
      var j := FindFrom(s, 0, delim);
      if j < |s| then (Stream(s[j + 1..], false, false), s[..j])
      else (Stream([], true, s == []), s)
  }

  /** What is left for the line loop to read: it shrinks with every line that is read. */
  function Measure(st: Stream): nat
  {
    if st.fail then 0 else |st.rest| + (if st.eof then 1 else 2)
  }

  /** What the string held before matters only when getline fails. */
  lemma GetLineIgnoresStr(st: Stream, delim: char, str: string)
    ensures GetLine(st, delim, str).0 == GetLine(st, delim, []).0
    ensures !GetLine(st, delim, str).0.fail ==> GetLine(st, delim, str).1 == GetLine(st, delim, []).1
  {
  }

  // ---------------------------------------------------------------------
  // One line
  // ---------------------------------------------------------------------

  /** A parsed line's entry: field 4 is the object name when field 5 is empty or missing. */
  function Entry(symbol: string, size: u32, location: string, objectName: string): (f: DBFunc)
    ensures f.name == symbol && f.size == size
    ensures objectName == [] ==> f.objectLocation == [] && f.objectName == location
    ensures objectName != [] ==> f.objectLocation == location && f.objectName == objectName
  {
    if objectName == [] then DBFunc(symbol, size, [], location)
    else DBFunc(symbol, size, location, objectName)
  }

  /**
    One line of the file: two hexadecimal numbers, then the text up to a tab,
    then the symbol, the location and the object name. The line yields an
    entry when both numbers were read and the text after them is not empty.
   */
  function ParseLine(line: string): (r: Option<(u32, DBFunc)>)
    ensures line == [] ==> r.None?
    ensures r.Some? ==> '\t' !in r.value.1.name
    ensures r.Some? && r.value.1.objectLocation != [] ==> r.value.1.objectName != [] && '\t' !in r.value.1.objectLocation
  {
    var (st1, checksum) := ExtractHex(Open(line));
    var (st2, size) := ExtractHex(st1);
    if st2.fail then None
    else
      var (st3, tab) := GetLine(st2, '\t', []);
      if st3.fail then None
      else
        var (st4, symbol) := GetLine(st3, '\t', []);
        var (st5, location) := if st4.fail then (st4, []) else GetLine(st4, '\t', []);
        var objectName := if st4.fail || st5.fail then [] else GetLine(st5, '\n', []).1;
        Some((checksum, Entry(symbol, size, location, objectName)))
  }

  /** The database after one line: a parsed line sets its checksum's entry. */
  function Store(db: FuncDB, parsed: Option<(u32, DBFunc)>): FuncDB
  {
    match parsed
    case None => db
    case Some((checksum, f)) => db[checksum := f]
  }

  // ---------------------------------------------------------------------
  // The file
  // ---------------------------------------------------------------------

  /** The lines `std::getline` yields from a stream until it fails. */
  function FileLines(st: Stream): seq<string>
    decreases Measure(st)
  {
    var (next, line) := GetLine(st, '\n', []);
    if next.fail then [] else [line] + FileLines(next)
  }

  /** The database after storing the lines in order. */
  function StoreLines(db: FuncDB, lines: seq<string>): FuncDB
    decreases |lines|
  {
    if lines == [] then db else StoreLines(Store(db, ParseLine(lines[0])), lines[1..])
  }

  /** What loading a file into a database gives: false when the file cannot be opened. */
  function Loaded(file: Option<string>, db: FuncDB): (bool, FuncDB)
  {
    match file
    case None => (false, db)
    case Some(text) => (true, StoreLines(db, FileLines(Open(text))))
  }

  /** The database after reading the rest of a stream line by line, as the loop of Load does. */
  function LoadFrom(st: Stream, db: FuncDB): FuncDB
    decreases Measure(st)
  {
    var (next, line) := GetLine(st, '\n', []);
    if next.fail then db else LoadFrom(next, Store(db, ParseLine(line)))
  }

  /** Reading line by line stores exactly the lines of the stream, in order. */
  lemma {:induction false} LoadFromStoresFileLines(st: Stream, db: FuncDB)
    ensures LoadFrom(st, db) == StoreLines(db, FileLines(st))
    decreases Measure(st)
  {
    var (next, line) := GetLine(st, '\n', []);
    if !next.fail {
      LoadFromStoresFileLines(next, Store(db, ParseLine(line)));
      assert ([line] + FileLines(next))[1..] == FileLines(next);
    }
  }

  /**
    CSVSignatureDB::Load: read the file line by line and store every line that
    parses; report whether the file could be opened.
   */
  method Load(file: Option<string>, database: FuncDB) returns (ok: bool, result: FuncDB)
    ensures (ok, result) == Loaded(file, database)
    ensures file == None ==> !ok && result == database
  {
    if file == None {
      return false, database;
    }
    var text := file.value;
    ghost var loaded := LoadFrom(Open(text), database);
    result := database;
    var line: string := [];
    var next := GetLine(Open(text), '\n', line);
    var st := next.0;
    line := next.1;
    while !st.fail
      invariant !st.fail ==> loaded == LoadFrom(st, Store(result, ParseLine(line)))
      invariant st.fail ==> loaded == result
      decreases Measure(st)
    {
      result := Store(result, ParseLine(line));
      GetLineIgnoresStr(st, '\n', line);
      next := GetLine(st, '\n', line);
      st, line := next.0, next.1;
    }
    LoadFromStoresFileLines(Open(text), database);
    ok := true;
  }

  // ---------------------------------------------------------------------
  // Saving
  // ---------------------------------------------------------------------

  /** The smallest key at least k. */
  function MinFrom(s: set<u32>, k: nat): (m: u32)
    requires exists j :: j in s && j >= k
    ensures m in s && m >= k
    ensures forall j :: j in s && j >= k ==> m <= j
    decreases 0x1_0000_0000 - k
  {
    var j :| j in s && j >= k;
    if k == j || k in s then k else MinFrom(s, k + 1)
  }

  /** A non-empty set of keys has a key at least 0. */
  lemma HasKey(s: set<u32>)
    requires s != {}
    ensures exists j :: j in s && j >= 0
  {
    var x :| x in s;
    assert x >= 0;
  }

  lemma RemoveOne(s: set<u32>, m: u32)
    requires m in s
    ensures |s - {m}| == |s| - 1
  {
  }

  predicate Increasing(r: seq<u32>)
  {
    forall i, j :: 0 <= i < j < |r| ==> r[i] < r[j]
  }

  /** The keys in the ascending order in which the map is walked: the smallest first. */
  function SortedKeys(s: set<u32>): (r: seq<u32>)
    ensures |r| == |s|
    ensures forall k :: k in r ==> k in s
    ensures forall k :: k in s ==> k in r
    decreases |s|
  {
    if s == {} then []
    else
      HasKey(s);
      var m := MinFrom(s, 0);
      RemoveOne(s, m);
      var rest := SortedKeys(s - {m});
      assert forall k :: k in s ==> k == m || k in s - {m};
      [m] + rest
  }

  /** Putting the minimum in front of the ascending rest gives the ascending whole. */
  lemma PrependMin(m: u32, rest: seq<u32>)
    requires forall k :: k in rest ==> m < k
    requires Increasing(rest)
    ensures Increasing([m] + rest)
  {
    var r := [m] + rest;
    forall i, j | 0 <= i < j < |r|
      ensures r[i] < r[j]
    {
      assert r[j] == rest[j - 1];
      if i > 0 {
        assert r[i] == rest[i - 1];
      } else {
        assert rest[j - 1] in rest;
      }
    }
  }

  /** The keys come out strictly ascending. */
  lemma {:induction false} SortedKeysAscend(s: set<u32>)
    ensures Increasing(SortedKeys(s))
    decreases |s|
  {
    if s != {} {
      HasKey(s);
      var m := MinFrom(s, 0);
      RemoveOne(s, m);
      var rest := SortedKeys(s - {m});
      assert SortedKeys(s) == [m] + rest;
      forall k | k in rest
        ensures m < k
      {
        assert k in s && k != m;
      }
      SortedKeysAscend(s - {m});
      PrependMin(m, rest);
    }
  }

  /** What `%s` of `c_str()` prints: the text up to its first NUL. */
  function CString(s: string): (r: string)
    ensures |r| <= |s| && r == s[..|r|] && '\0' !in r
    ensures '\0' !in s ==> r == s
    ensures |r| < |s| ==> s[|r|] == '\0'
  {
    if s == [] || s[0] == '\0' then [] else [s[0]] + CString(s[1..])
  }

  /** The five tab-separated fields of a saved line, without its newline. */
  function Record(checksum: u32, f: DBFunc): (r: string)
    ensures |r| >= 20 && r[..8] == Hex8(checksum) && r[8] == '\t' && r[9..17] == Hex8(f.size) && r[17] == '\t'
    ensures '\0' !in r
  {
    var c, z := Hex8(checksum), Hex8(f.size);
    var fields := CString(f.name) + ("\t" + (CString(f.objectLocation) + ("\t" + CString(f.objectName))));
    var after := z + ("\t" + fields);
    assert '\0' !in c && '\0' !in z by {
      assert !IsHexDigit('\0');
    }
    assert (c + ("\t" + after))[..8] == c;
    assert (c + ("\t" + after))[9..] == after;
    assert after[..8] == z;
    c + ("\t" + after)
  }

  /** One saved line: `%08x\t%08x\t%s\t%s\t%s\n`. */
  function FormatEntry(checksum: u32, f: DBFunc): (r: string)
    ensures |r| > 0 && r[..|r| - 1] == Record(checksum, f) && r[|r| - 1] == '\n' && '\0' !in r
  {
    Record(checksum, f) + "\n"
  }

  /** The lines of the given keys, in order. */
  function FormatAll(db: FuncDB, keys: seq<u32>): string
    requires forall k :: k in keys ==> k in db
  {
    if keys == [] then [] else Record(keys[0], db[keys[0]]) + ("\n" + FormatAll(db, keys[1..]))
  }

  /** The text Save writes. */
  function SavedText(db: FuncDB): string
  {
    FormatAll(db, SortedKeys(db.Keys))
  }

  /** Writing the line of key i moves it from the lines still to write to the text already written. */
  lemma FormatStep(db: FuncDB, keys: seq<u32>, i: nat, written: string)
    requires i < |keys| && forall k :: k in keys ==> k in db
    ensures written + FormatAll(db, keys[i..])
         == (written + FormatEntry(keys[i], db[keys[i]])) + FormatAll(db, keys[i + 1..])
  {
    assert keys[i..][1..] == keys[i + 1..];
    var r, t := Record(keys[i], db[keys[i]]), FormatAll(db, keys[i + 1..]);
    assert FormatAll(db, keys[i..]) == r + ("\n" + t);
    assert written + (r + ("\n" + t)) == (written + (r + "\n")) + t;
  }

  /**
    CSVSignatureDB::Save: when the file can be opened for writing, write one
    line per entry in ascending checksum order and report success.
   */
  method Save(canOpen: bool, database: FuncDB) returns (ok: bool, written: string)
    ensures ok == canOpen
    ensures written == if canOpen then SavedText(database) else []
  {
    if !canOpen {
      return false, [];
    }
    var keys := SortedKeys(database.Keys);
    written := [];
    var i := 0;
    while i < |keys|
      invariant 0 <= i <= |keys|
      invariant written + FormatAll(database, keys[i..]) == SavedText(database)
    {
      FormatStep(database, keys, i, written);
      written := written + FormatEntry(keys[i], database[keys[i]]);
      i := i + 1;
    }
    assert keys[i..] == [];
    ok := true;
  }
}
