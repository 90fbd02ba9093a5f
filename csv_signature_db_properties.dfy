/**
  What loading and saving the tab-separated signature database guarantee:
  how a line is split into its fields, which lines are ignored, that the last
  line for a checksum wins, and that loading what was saved gives the
  database back.
 */
module CSVSignatureDBProperties {
  import opened Wrappers
  import opened Text
  import opened CSVSignatureDB

  // ---------------------------------------------------------------------
  // Stream steps
  // ---------------------------------------------------------------------

  predicate AllSpace(w: string)
  {
    forall i :: 0 <= i < |w| ==> IsSpace(w[i])
  }

  /** A hexadecimal number that fits in 32 bits. */
  predicate HexToken(d: string)
  {
    d != [] && AllHexDigits(d) && HexValue(d) < 0x1_0000_0000
  }

  /** Whitespace, then a number, then text that does not continue the number: the number is read. */
  lemma ReadsToken(w: string, d: string, b: string)
    requires AllSpace(w) && HexToken(d)
    requires b == [] || !IsHexDigit(b[0])
    ensures ExtractHex(Open(w + (d + b))) == (Stream(b, b == [], false), HexValue(d))
  {
    var s := w + (d + b);
    TokenBounds(w, d, b);
    Splits(w, d, b);
    ReadsTokenAt(s, |w|, |w| + |d|);
  }

  /** Where the spaces and the digits of a token end. */
  lemma TokenBounds(w: string, d: string, b: string)
    requires AllSpace(w) && HexToken(d)
    requires b == [] || !IsHexDigit(b[0])
    ensures SkipSpace(w + (d + b), 0) == |w|
    ensures HexRunEnd(w + (d + b), |w|) == |w| + |d|
  {
    assert (d + b)[0] == d[0];
    SpacesEnd(w, d + b);
    DigitsEnd(w, d, b);
  }

  lemma SpacesEnd(w: string, t: string)
    requires AllSpace(w)
    requires t != [] && !IsSpace(t[0])
    ensures SkipSpace(w + t, 0) == |w|
  {
    var s := w + t;
    assert forall i :: 0 <= i < |w| ==> s[i] == w[i];
    assert s[|w|] == t[0];
    SkipSpaceIs(s, 0, |w|);
  }

  lemma DigitsEnd(w: string, d: string, b: string)
    requires AllHexDigits(d)
    requires b == [] || !IsHexDigit(b[0])
    ensures HexRunEnd(w + (d + b), |w|) == |w| + |d|
  {
    var s := w + (d + b);
    var k, e := |w|, |w| + |d|;
    assert forall i :: k <= i < e ==> s[i] == d[i - k];
    assert e < |s| ==> s[e] == b[0];
    HexRunEndIs(s, k, e);
  }

  lemma Splits(w: string, d: string, b: string)
    ensures (w + (d + b))[|w|..|w| + |d|] == d
    ensures (w + (d + b))[|w| + |d|..] == b
  {
    assert (w + (d + b))[|w|..] == d + b;
  }

  /** Once the spaces end at k and the digits at e, the digits between them are the number read. */
  lemma ReadsTokenAt(s: string, k: nat, e: nat)
    requires k < e <= |s|
    requires SkipSpace(s, 0) == k && HexRunEnd(s, k) == e
    requires HexValue(s[k..e]) < 0x1_0000_0000
    ensures ExtractHex(Open(s)) == (Stream(s[e..], e == |s|, false), HexValue(s[k..e]))
  {
  }

  /** A number at the very start of the text is read. */
  lemma ReadsLeadingToken(d: string, b: string)
    requires HexToken(d)
    requires b == [] || !IsHexDigit(b[0])
    ensures ExtractHex(Open(d + b)) == (Stream(b, b == [], false), HexValue(d))
  {
    ReadsToken([], d, b);
    assert [] + (d + b) == d + b;
  }

  /** getline stops at the first delimiter and consumes it. */
  lemma ReadsField(w: string, delim: char, b: string, str: string)
    requires delim !in w
    ensures GetLine(Open(w + ([delim] + b)), delim, str) == (Open(b), w)
  {
    var s := w + ([delim] + b);
    assert forall k :: 0 <= k < |w| ==> s[k] == w[k];
    FindFromIs(s, 0, delim, |w|);
    assert s[..|w|] == w;
    assert s[|w| + 1..] == b;
  }

  /** getline at a delimiter yields the empty string and goes past it. */
  lemma ReadsEmptyField(delim: char, b: string, str: string)
    ensures GetLine(Open([delim] + b), delim, str) == (Open(b), [])
  {
    ReadsField([], delim, b, str);
    assert [] + ([delim] + b) == [delim] + b;
  }

  /** getline without a delimiter in sight yields the rest and sets end-of-file; it fails only on nothing. */
  lemma ReadsLastField(w: string, delim: char, str: string)
    requires delim !in w
    ensures GetLine(Open(w), delim, str) == (Stream([], true, w == []), w)
  {
    FindFromIs(w, 0, delim, |w|);
  }

  // ---------------------------------------------------------------------
  // Lines
  // ---------------------------------------------------------------------

  /** The line `checksum TAB size TAB symbol TAB location TAB objectName`. */
  function FiveFields(d1: string, d2: string, symbol: string, location: string, objectName: string): string
  {
    d1 + ("\t" + (d2 + ("\t" + (symbol + ("\t" + (location + ("\t" + objectName)))))))
  }

  /**
    A line with five fields gives the symbol and the size; the fifth field is
    the object name unless it is empty, in which case the fourth is.
   */
  lemma ParsesFiveFields(d1: string, d2: string, symbol: string, location: string, objectName: string)
    requires HexToken(d1) && HexToken(d2)
    requires '\t' !in symbol && '\t' !in location && '\n' !in objectName
    ensures ParseLine(FiveFields(d1, d2, symbol, location, objectName))
         == Some((HexValue(d1), Entry(symbol, HexValue(d2), location, objectName)))
  {
    var r3 := "\t" + objectName;
    var r2 := "\t" + (location + r3);
    var r1 := "\t" + (symbol + r2);
    ReadsLeadingToken(d1, "\t" + (d2 + r1));
    ReadsToken("\t", d2, r1);
    ReadsEmptyField('\t', symbol + r2, []);
    ReadsField(symbol, '\t', location + r3, []);
    ReadsField(location, '\t', objectName, []);
    ReadsLastField(objectName, '\n', []);
  }

  /** A line with four fields: the fourth is the object name and there is no location. */
  lemma ParsesFourFields(d1: string, d2: string, symbol: string, objectName: string)
    requires HexToken(d1) && HexToken(d2)
    requires '\t' !in symbol && '\t' !in objectName
    ensures ParseLine(d1 + ("\t" + (d2 + ("\t" + (symbol + ("\t" + objectName))))))
         == Some((HexValue(d1), DBFunc(symbol, HexValue(d2), [], objectName)))
  {
    var r2 := "\t" + objectName;
    var r1 := "\t" + (symbol + r2);
    ReadsLeadingToken(d1, "\t" + (d2 + r1));
    ReadsToken("\t", d2, r1);
    ReadsEmptyField('\t', symbol + r2, []);
    ReadsField(symbol, '\t', objectName, []);
    ReadsLastField(objectName, '\t', []);
  }

  /** A line with only a symbol after the numbers: no location and no object name. */
  lemma ParsesThreeFields(d1: string, d2: string, symbol: string)
    requires HexToken(d1) && HexToken(d2)
    requires '\t' !in symbol
    ensures ParseLine(d1 + ("\t" + (d2 + ("\t" + symbol))))
         == Some((HexValue(d1), DBFunc(symbol, HexValue(d2), [], [])))
  {
    var r1 := "\t" + symbol;
    ReadsLeadingToken(d1, "\t" + (d2 + r1));
    ReadsToken("\t", d2, r1);
    ReadsEmptyField('\t', symbol, []);
    ReadsLastField(symbol, '\t', []);
  }

  /** Two numbers followed by any further text give an entry under the first, with the second as size. */
  lemma TokensThenTextGiveEntry(d1: string, d2: string, rest: string)
    requires HexToken(d1) && HexToken(d2)
    requires rest != [] && !IsHexDigit(rest[0])
    ensures var p := ParseLine(d1 + ("\t" + (d2 + rest)));
      p.Some? && p.value.0 == HexValue(d1) && p.value.1.size == HexValue(d2)
  {
    ReadsLeadingToken(d1, "\t" + (d2 + rest));
    ReadsToken("\t", d2, rest);
  }

  /** Two numbers and nothing after them: the line is ignored. */
  lemma TokensAloneGiveNothing(d1: string, d2: string)
    requires HexToken(d1) && HexToken(d2)
    ensures ParseLine(d1 + ("\t" + d2)) == None
  {
    ReadsLeadingToken(d1, "\t" + d2);
    ReadsToken("\t", d2, []);
    assert d2 + [] == d2;
  }

  /** A line whose first non-blank character is not a hexadecimal digit is ignored. */
  lemma NoLeadingNumberGivesNothing(w: string, b: string)
    requires AllSpace(w)
    requires b == [] || (!IsSpace(b[0]) && !IsHexDigit(b[0]))
    ensures ParseLine(w + b) == None
  {
    var s := w + b;
    assert forall k :: 0 <= k < |w| ==> s[k] == w[k];
    SkipSpaceIs(s, 0, |w|);
    if b != [] {
      HexRunEndIs(s, |w|, |w|);
    }
  }

  /**
    The model does not know the `0x` prefix: on the checksum it reads 0, the
    size read then fails at the `x`, and the line is ignored.
   */
  lemma HexPrefixOnChecksumIgnored(rest: string)
    ensures ParseLine("0x" + rest) == None
  {
    ZeroThenX(rest);
    ReadsLeadingToken("0", "x" + rest);
    var s := "x" + rest;
    SkipSpaceIs(s, 0, 0);
    HexRunEndIs(s, 0, 0);
  }

  /** On the size, a `0x` prefix is read as size 0 and the line is kept. */
  lemma HexPrefixOnSizeReadsZero(d1: string, rest: string)
    requires HexToken(d1)
    ensures var p := ParseLine(d1 + ("\t" + ("0x" + rest)));
      p.Some? && p.value.0 == HexValue(d1) && p.value.1.size == 0
  {
    ZeroThenX(rest);
    TokensThenTextGiveEntry(d1, "0", "x" + rest);
  }

  /** `0x` followed by text is the number 0 followed by text that does not continue it. */
  lemma ZeroThenX(rest: string)
    ensures HexToken("0") && HexValue("0") == 0
    ensures "0x" + rest == "0" + ("x" + rest)
    ensures !IsHexDigit(("x" + rest)[0])
  {
    assert IsHexDigit('0');
  }

  /** A checksum that does not fit in 32 bits makes the line ignored. */
  lemma OverflowGivesNothing(d: string, b: string)
    requires d != [] && AllHexDigits(d) && HexValue(d) >= 0x1_0000_0000
    requires b == [] || !IsHexDigit(b[0])
    ensures ParseLine(d + b) == None
  {
    var s := d + b;
    SkipSpaceIs(s, 0, 0);
    assert forall k :: 0 <= k < |d| ==> s[k] == d[k];
    HexRunEndIs(s, 0, |d|);
    assert s[0..|d|] == d;
  }

  // ---------------------------------------------------------------------
  // Storing lines
  // ---------------------------------------------------------------------

  /** The entry the last line parsed for a checksum gives, if any line does. */
  function LastParsed(lines: seq<string>, checksum: u32): Option<DBFunc>
    decreases |lines|
  {
    if lines == [] then None
    else
      var later := LastParsed(lines[1..], checksum);
      if later.Some? then later
      else match ParseLine(lines[0])
        case Some((k, f)) => if k == checksum then Some(f) else None
        case None => None
  }

  /** The last line that parses for a checksum decides its entry; without one the old entry stays. */
  lemma {:induction false} LastLineWins(db: FuncDB, lines: seq<string>, checksum: u32)
    ensures var r := StoreLines(db, lines);
      match LastParsed(lines, checksum)
      case Some(f) => checksum in r && r[checksum] == f
      case None => (checksum in r <==> checksum in db) && (checksum in db ==> r[checksum] == db[checksum])
    decreases |lines|
  {
    if lines != [] {
      LastLineWins(Store(db, ParseLine(lines[0])), lines[1..], checksum);
    }
  }

  /** A line that does not parse changes nothing. */
  lemma {:induction false} UnparsedLineIsIgnored(db: FuncDB, before: seq<string>, line: string, after: seq<string>)
    requires ParseLine(line) == None
    ensures StoreLines(db, before + [line] + after) == StoreLines(db, before + after)
    decreases |before|
  {
    if before == [] {
      assert [] + [line] + after == [line] + after;
      assert ([line] + after)[1..] == after;
      assert [] + after == after;
    } else {
      var s := before + [line] + after;
      var t := before + after;
      assert s[0] == t[0] == before[0];
      assert s[1..] == before[1..] + [line] + after;
      assert t[1..] == before[1..] + after;
      UnparsedLineIsIgnored(Store(db, ParseLine(before[0])), before[1..], line, after);
    }
  }

  // ---------------------------------------------------------------------
  // The lines of a file
  // ---------------------------------------------------------------------

  /** A text made of the given lines, each ended by a newline, then a tail without one. */
  function FileText(lines: seq<string>, tail: string): string
    decreases |lines|
  {
    if lines == [] then tail else lines[0] + ("\n" + FileText(lines[1..], tail))
  }

  /** The line loop reads back every line, and a last line without a newline too when it is not empty. */
  lemma {:induction false} ReadsFileLines(lines: seq<string>, tail: string)
    requires forall i :: 0 <= i < |lines| ==> '\n' !in lines[i]
    requires '\n' !in tail
    ensures FileLines(Open(FileText(lines, tail))) == lines + (if tail == [] then [] else [tail])
    decreases |lines|
  {
    if lines == [] {
      ReadsLastLine(tail);
    } else {
      var rest := FileText(lines[1..], tail);
      var last := if tail == [] then [] else [tail];
      assert FileText(lines, tail) == lines[0] + ("\n" + rest);
      ReadsOneLine(lines[0], rest);
      ReadsFileLines(lines[1..], tail);
      assert FileLines(Open(rest)) == lines[1..] + last;
      ConsAppend(lines, last);
    }
  }

  lemma ConsAppend<T>(xs: seq<T>, ys: seq<T>)
    requires xs != []
    ensures [xs[0]] + (xs[1..] + ys) == xs + ys
  {
    assert xs == [xs[0]] + xs[1..];
  }

  /** A line ended by a newline is read, and reading goes on after it. */
  lemma ReadsOneLine(line: string, rest: string)
    requires '\n' !in line
    ensures FileLines(Open(line + ("\n" + rest))) == [line] + FileLines(Open(rest))
  {
    ReadsField(line, '\n', rest, []);
  }

  /** A last line without a newline is read when it is not empty, and then reading stops. */
  lemma ReadsLastLine(tail: string)
    requires '\n' !in tail
    ensures FileLines(Open(tail)) == if tail == [] then [] else [tail]
  {
    ReadsLastField(tail, '\n', []);
    if tail != [] {
      assert GetLine(Stream([], true, false), '\n', []).0.fail;
    }
  }

  // ---------------------------------------------------------------------
  // Saving, then loading
  // ---------------------------------------------------------------------

  /** An entry whose printed strings keep the file's separators out of its fields. */
  predicate Saveable(f: DBFunc)
  {
    '\t' !in CString(f.name) && '\n' !in CString(f.name)
    && '\t' !in CString(f.objectLocation) && '\n' !in CString(f.objectLocation)
    && '\n' !in CString(f.objectName)
  }

  /** The entry loading a saved line gives back: the printed strings, with an empty object name filled from the location. */
  function Reloaded(f: DBFunc): DBFunc
  {
    Entry(CString(f.name), f.size, CString(f.objectLocation), CString(f.objectName))
  }

  /** Every entry of a database, reloaded. */
  function ReloadedAll(db: FuncDB): (m: FuncDB)
    ensures m.Keys == db.Keys
    ensures forall k :: k in m ==> m[k] == Reloaded(db[k])
  {
    map k | k in db :: Reloaded(db[k])
  }

  /** A printed number is all digits and no separator. */
  lemma Hex8HasNoSeparator(x: u32)
    ensures HexToken(Hex8(x)) && HexValue(Hex8(x)) == x
    ensures '\t' !in Hex8(x) && '\n' !in Hex8(x)
  {
    Hex8RoundTrip(x);
    var h := Hex8(x);
    assert forall i :: 0 <= i < |h| ==> IsHexDigit(h[i]);
  }

  /** A saved line parses back to its checksum and entry. */
  lemma ParsesRecord(checksum: u32, f: DBFunc)
    requires Saveable(f)
    ensures ParseLine(Record(checksum, f)) == Some((checksum, Reloaded(f)))
  {
    Hex8HasNoSeparator(checksum);
    Hex8HasNoSeparator(f.size);
    ParsesFiveFields(Hex8(checksum), Hex8(f.size), CString(f.name), CString(f.objectLocation), CString(f.objectName));
  }

  /** The saved lines of the given keys, in order. */
  function Records(db: FuncDB, keys: seq<u32>): (r: seq<string>)
    requires forall k :: k in keys ==> k in db
    ensures |r| == |keys|
    decreases |keys|
  {
    if keys == [] then [] else [Record(keys[0], db[keys[0]])] + Records(db, keys[1..])
  }

  /** The text Save writes is its lines, each ended by a newline, with no separator inside a line. */
  lemma SavedTextIsLines(db: FuncDB, keys: seq<u32>)
    requires forall k :: k in keys ==> k in db && Saveable(db[k])
    ensures FormatAll(db, keys) == FileText(Records(db, keys), [])
    ensures forall i :: 0 <= i < |keys| ==> '\n' !in Records(db, keys)[i]
  {
    FormatAllIsFileText(db, keys);
    RecordsHaveNoNewline(db, keys);
  }

  lemma {:induction false} FormatAllIsFileText(db: FuncDB, keys: seq<u32>)
    requires forall k :: k in keys ==> k in db
    ensures FormatAll(db, keys) == FileText(Records(db, keys), [])
    decreases |keys|
  {
    if keys != [] {
      FormatAllIsFileText(db, keys[1..]);
      var r := Records(db, keys);
      var line := Record(keys[0], db[keys[0]]);
      assert r == [line] + Records(db, keys[1..]);
      assert FormatAll(db, keys) == line + ("\n" + FormatAll(db, keys[1..]));
      assert FileText(r, []) == line + ("\n" + FileText(Records(db, keys[1..]), []));
    }
  }

  lemma RecordsHaveNoNewline(db: FuncDB, keys: seq<u32>)
    requires forall k :: k in keys ==> k in db && Saveable(db[k])
    ensures forall i :: 0 <= i < |keys| ==> '\n' !in Records(db, keys)[i]
  {
    forall i | 0 <= i < |keys|
      ensures '\n' !in Records(db, keys)[i]
    {
      RecordAt(db, keys, i);
      RecordHasNoNewline(keys[i], db[keys[i]]);
    }
  }

  /** The i-th saved line is the record of the i-th key. */
  lemma {:induction false} RecordAt(db: FuncDB, keys: seq<u32>, i: nat)
    requires forall k :: k in keys ==> k in db
    requires i < |keys|
    ensures Records(db, keys)[i] == Record(keys[i], db[keys[i]])
    decreases |keys|
  {
    if i > 0 {
      RecordAt(db, keys[1..], i - 1);
      assert keys[1..][i - 1] == keys[i];
    }
  }

  /** A saved line has no newline inside it. */
  lemma RecordHasNoNewline(checksum: u32, f: DBFunc)
    requires Saveable(f)
    ensures '\n' !in Record(checksum, f)
  {
    Hex8HasNoSeparator(checksum);
    Hex8HasNoSeparator(f.size);
  }

  /** Storing the saved lines of some keys sets exactly those keys to their reloaded entries. */
  lemma {:induction false} StoresRecords(into: FuncDB, db: FuncDB, keys: seq<u32>, c: u32)
    requires forall k :: k in keys ==> k in db && Saveable(db[k])
    ensures var r := StoreLines(into, Records(db, keys));
      (c in r <==> c in into || c in keys) && (c in r ==> r[c] == if c in keys then Reloaded(db[c]) else into[c])
    decreases |keys|
  {
    if keys != [] {
      var k0 := keys[0];
      ParsesRecord(k0, db[k0]);
      StoresRecords(into[k0 := Reloaded(db[k0])], db, keys[1..], c);
      var rs := Records(db, keys);
      assert rs[0] == Record(k0, db[k0]) && rs[1..] == Records(db, keys[1..]);
      assert c in keys <==> c == k0 || c in keys[1..];
    }
  }

  /**
    Loading what Save wrote into a database sets every saved checksum to its
    reloaded entry and keeps the other entries.
   */
  lemma SaveThenLoad(db: FuncDB, into: FuncDB)
    requires forall k :: k in db ==> Saveable(db[k])
    ensures Loaded(Some(SavedText(db)), into) == (true, into + ReloadedAll(db))
  {
    var keys := SortedKeys(db.Keys);
    var lines := Records(db, keys);
    SavedTextIsLines(db, keys);
    ReadsFileLines(lines, []);
    assert lines + [] == lines;
    assert FileLines(Open(SavedText(db))) == lines;
    var r := StoreLines(into, lines);
    forall c: u32
      ensures (c in r <==> c in into || c in db) && (c in r ==> r[c] == if c in db then Reloaded(db[c]) else into[c])
    {
      StoresRecords(into, db, keys, c);
    }
    Overlay(into, ReloadedAll(db), r);
  }

  /** A database that agrees at every checksum with one map laid over another is that overlay. */
  lemma Overlay(into: FuncDB, m: FuncDB, r: FuncDB)
    requires forall c: u32 :: (c in r <==> c in into || c in m) && (c in r ==> r[c] == if c in m then m[c] else into[c])
    ensures r == into + m
  {
    assert r.Keys == (into + m).Keys;
  }

  /**
    Loading what Save wrote into an empty database gives the database back,
    when no string holds a NUL or a separator and no entry has a location
    without an object name.
   */
  lemma SaveThenLoadRestores(db: FuncDB)
    requires forall k :: k in db ==> Saveable(db[k])
    requires forall k :: k in db ==> '\0' !in db[k].name && '\0' !in db[k].objectLocation && '\0' !in db[k].objectName
    requires forall k :: k in db ==> db[k].objectName != [] || db[k].objectLocation == []
    ensures Loaded(Some(SavedText(db)), map[]) == (true, db)
  {
    SaveThenLoad(db, map[]);
    ReloadedUnchanged(db);
  }

  /** Entries without NULs, and with an object name whenever they have a location, reload unchanged. */
  lemma ReloadedUnchanged(db: FuncDB)
    requires forall k :: k in db ==> '\0' !in db[k].name && '\0' !in db[k].objectLocation && '\0' !in db[k].objectName
    requires forall k :: k in db ==> db[k].objectName != [] || db[k].objectLocation == []
    ensures map[] + ReloadedAll(db) == db
  {
    var m := ReloadedAll(db);
    assert forall k :: k in db ==> m[k] == db[k];
    assert map[] + m == m;
  }
}
