/**
 * The self-contained string and number helpers of the browser script: reading a cookie
 * (`getCookie`), grouping the digits of a number (`formatNumber`) and the recycling
 * estimate shown beside the tree count.
 */
module Frontend {
  import opened Wrappers
  import opened Numeric
  import opened Text

  // ---------------------------------------------------------------------------
  // String.prototype.split with a one-character separator, and its inverse

  /** `s.split(sep)`: the pieces between separators, empty ones included. */
  function Split(s: string, sep: char): (parts: seq<string>)
    ensures |parts| >= 1
  {
    if s == [] then [[]]
    else
      var rest := Split(s[1..], sep);
      if s[0] == sep then [[]] + rest else [[s[0]] + rest[0]] + rest[1..]
  }

  /** A string without the separator is a single piece. */
  lemma {:induction false} SplitWithoutSeparator(s: string, sep: char)
    requires sep !in s
    ensures Split(s, sep) == [s]
  {
    if s != [] {
      assert sep !in s[1..];
      SplitWithoutSeparator(s[1..], sep);
      assert s == [s[0]] + s[1..];
    }
  }

  /** No piece contains the separator. */
  lemma {:induction false} SplitPiecesLackSeparator(s: string, sep: char)
    ensures forall k :: 0 <= k < |Split(s, sep)| ==> sep !in Split(s, sep)[k]
  {
    if s != [] {
      SplitPiecesLackSeparator(s[1..], sep);
      var rest := Split(s[1..], sep);
      var parts := Split(s, sep);
      if s[0] == sep {
        assert forall k :: 1 <= k < |parts| ==> parts[k] == rest[k - 1];
      } else {
        assert forall k :: 1 <= k < |parts| ==> parts[k] == rest[k];
      }
    }
  }

  /** `parts.join(sep)`. */
  function Join(parts: seq<string>, sep: char): string
    requires |parts| >= 1
  {
    if |parts| == 1 then parts[0] else parts[0] + [sep] + Join(parts[1..], sep)
  }

  /** Joining the pieces gives back the string. */
  lemma {:induction false} JoinSplit(s: string, sep: char)
    ensures Join(Split(s, sep), sep) == s
  {
    if s != [] {
      var rest := Split(s[1..], sep);
      JoinSplit(s[1..], sep);
      if s[0] == sep {
        assert Split(s, sep)[1..] == rest;
      } else {
        JoinCons(s[0], rest, sep);
      }
      assert s == [s[0]] + s[1..];
    }
  }

  /** Putting a character in front of the first piece puts it in front of the joined string. */
  lemma JoinCons(c: char, parts: seq<string>, sep: char)
    requires |parts| >= 1
    ensures Join([[c] + parts[0]] + parts[1..], sep) == [c] + Join(parts, sep)
  {
    var q := [[c] + parts[0]] + parts[1..];
    assert q[1..] == parts[1..];
  }

  /** Splitting a joined list of separator-free pieces gives back the pieces. */
  lemma {:induction false} SplitJoin(parts: seq<string>, sep: char)
    requires |parts| >= 1
    requires forall k :: 0 <= k < |parts| ==> sep !in parts[k]
    ensures Split(Join(parts, sep), sep) == parts
    decreases |parts|
  {
    if |parts| == 1 {
      SplitWithoutSeparator(parts[0], sep);
    } else {
      SplitJoin(parts[1..], sep);
      SplitAppend(parts[0], Join(parts[1..], sep), sep);
      SplitWithoutSeparator(parts[0], sep);
      assert parts == [parts[0]] + parts[1..];
    }
  }

  /** A leading separator opens an empty first piece. */
  lemma SplitConsSeparator(t: string, sep: char)
    ensures Split([sep] + t, sep) == [[]] + Split(t, sep)
  {
    assert ([sep] + t)[1..] == t;
  }

  /** Any other leading character joins the first piece. */
  lemma SplitConsOther(c: char, t: string, sep: char)
    requires c != sep
    ensures Split([c] + t, sep) == [[c] + Split(t, sep)[0]] + Split(t, sep)[1..]
  {
    assert ([c] + t)[0] == c;
    assert ([c] + t)[1..] == t;
  }

  /** Splitting at a separator adds the pieces of both sides. */
  lemma {:induction false} SplitAppend(a: string, b: string, sep: char)
    ensures Split(a + [sep] + b, sep) == Split(a, sep) + Split(b, sep)
  {
    if a == [] {
      assert a + [sep] + b == [sep] + b;
      SplitConsSeparator(b, sep);
    } else {
      var t := a[1..] + [sep] + b;
      SplitAppend(a[1..], b, sep);
      assert a + [sep] + b == [a[0]] + t;
      assert a == [a[0]] + a[1..];
      if a[0] == sep {
        SplitAppendSeparator(a[1..], b, sep);
      } else {
        SplitAppendOther(a[0], a[1..], b, sep);
      }
    }
  }

  lemma SplitAppendSeparator(a: string, b: string, sep: char)
    requires Split(a + [sep] + b, sep) == Split(a, sep) + Split(b, sep)
    ensures Split([sep] + (a + [sep] + b), sep) == Split([sep] + a, sep) + Split(b, sep)
  {
    SplitConsSeparator(a + [sep] + b, sep);
    SplitConsSeparator(a, sep);
    ConsAppend([], Split(a, sep), Split(b, sep));
  }

  lemma SplitAppendOther(c: char, a: string, b: string, sep: char)
    requires c != sep
    requires Split(a + [sep] + b, sep) == Split(a, sep) + Split(b, sep)
    ensures Split([c] + (a + [sep] + b), sep) == Split([c] + a, sep) + Split(b, sep)
  {
    SplitConsOther(c, a + [sep] + b, sep);
    SplitConsOther(c, a, sep);
    var l := Split(a, sep);
    var r := Split(b, sep);
    assert (l + r)[0] == l[0];
    assert (l + r)[1..] == l[1..] + r;
    ConsAppend([c] + l[0], l[1..], r);
  }

  lemma ConsAppend<T>(x: T, p: seq<T>, q: seq<T>)
    ensures [x] + (p + q) == ([x] + p) + q
  {
  }

  /** Text without the separator in front of the first piece only lengthens that piece. */
  lemma {:induction false} SplitPrepend(w: string, b: string, sep: char)
    requires sep !in w
    ensures Split(w + b, sep) == [w + Split(b, sep)[0]] + Split(b, sep)[1..]
  {
    var parts := Split(b, sep);
    if w == [] {
      assert w + b == b;
      assert w + parts[0] == parts[0];
      assert parts == [parts[0]] + parts[1..];
    } else {
      var t := w[1..] + b;
      assert w + b == [w[0]] + t;
      assert sep !in w[1..];
      SplitPrepend(w[1..], b, sep);
      SplitConsOther(w[0], t, sep);
      assert [w[0]] + (w[1..] + parts[0]) == w + parts[0];
    }
  }

  // ---------------------------------------------------------------------------
  // String.prototype.trim and String.prototype.substring

  /** The characters `trim` removes: ECMAScript WhiteSpace and LineTerminator. */
  predicate IsJsSpace(c: char)
  {
    || c == ' ' || c == '\t' || c == '\n' || c == '\r' || c == '\U{000B}' || c == '\U{000C}'
    || c == '\U{00A0}' || c == '\U{1680}' || ('\U{2000}' <= c <= '\U{200A}')
    || c == '\U{2028}' || c == '\U{2029}' || c == '\U{202F}' || c == '\U{205F}'
    || c == '\U{3000}' || c == '\U{FEFF}'
  }

  predicate AllSpace(s: string)
  {
    forall k :: 0 <= k < |s| ==> IsJsSpace(s[k])
  }

  /** Leading white space removed. */
  function TrimStart(s: string): string
  {
    if s == [] || !IsJsSpace(s[0]) then s else TrimStart(s[1..])
  }

  /** Trailing white space removed. */
  function TrimEnd(s: string): string
  {
    if s == [] || !IsJsSpace(s[|s| - 1]) then s else TrimEnd(s[..|s| - 1])
  }

  /** `TrimStart` removes a run of white space from the front, and all of that run. */
  lemma {:induction false} TrimStartRemovesLeadingSpace(s: string)
    ensures var r := TrimStart(s);
            && |r| <= |s| && r == s[|s| - |r|..]
            && AllSpace(s[..|s| - |r|])
            && (r == [] || !IsJsSpace(r[0]))
    decreases |s|
  {
    if s != [] && IsJsSpace(s[0]) {
      TrimStartRemovesLeadingSpace(s[1..]);
      var r := TrimStart(s[1..]);
      assert s[..|s| - |r|] == [s[0]] + s[1..][..|s| - 1 - |r|];
    }
  }

  /** `TrimEnd` removes a run of white space from the back, and all of that run. */
  lemma {:induction false} TrimEndRemovesTrailingSpace(s: string)
    ensures var r := TrimEnd(s);
            && |r| <= |s| && r == s[..|r|]
            && AllSpace(s[|r|..])
            && (r == [] || !IsJsSpace(r[|r| - 1]))
    decreases |s|
  {
    if s != [] && IsJsSpace(s[|s| - 1]) {
      TrimEndRemovesTrailingSpace(s[..|s| - 1]);
      var r := TrimEnd(s[..|s| - 1]);
      assert s[|r|..] == s[..|s| - 1][|r|..] + [s[|s| - 1]];
    }
  }

  /** `s.trim()`. */
  function Trim(s: string): string
  {
    TrimEnd(TrimStart(s))
  }

  /** White space in front of a string does not change what `trim` gives. */
  lemma {:induction false} TrimIgnoresLeadingSpace(w: string, s: string)
    requires AllSpace(w)
    ensures Trim(w + s) == Trim(s)
    decreases |w|
  {
    if w != [] {
      assert (w + s)[1..] == w[1..] + s;
      TrimIgnoresLeadingSpace(w[1..], s);
    } else {
      assert w + s == s;
    }
  }

  /** `s.substring(start, end)` for 0 <= start <= end: both ends clamped to the length. */
  function Substring(s: string, start: nat, end: nat): (r: string)
    requires start <= end
  {
    var e := if end < |s| then end else |s|;
    var b := if start < e then start else e;
    s[b..e]
  }

  /** `s.substring(start)` with start within the string is the suffix from start. */
  lemma SubstringToEnd(s: string, start: nat)
    requires start <= |s|
    ensures Substring(s, start, |s|) == s[start..]
  {
  }

  // ---------------------------------------------------------------------------
  // getCookie

  /** The entry, already trimmed, begins with `name=`. */
  predicate NamesCookie(entry: string, name: string)
  {
    |entry| > |name| && entry[..|name| + 1] == name + "="
  }

  /** The comparison `cookie.substring(0, name.length + 1) === (name + '=')` is the prefix test. */
  lemma SubstringTestIsPrefix(entry: string, name: string)
    ensures Substring(entry, 0, |name| + 1) == name + "=" <==> NamesCookie(entry, name)
  {
  }

  /** The value of the first entry naming the cookie, decoded; none if no entry does. */
  function FirstMatch(entries: seq<string>, name: string, decode: string -> string): Option<string>
  {
    if entries == [] then None
    else
      var c := Trim(entries[0]);
      if NamesCookie(c, name) then Some(decode(c[|name| + 1..])) else FirstMatch(entries[1..], name, decode)
  }

  /** A value is found exactly when some entry names the cookie. */
  lemma {:induction false} FirstMatchFound(entries: seq<string>, name: string, decode: string -> string)
    ensures FirstMatch(entries, name, decode).Some? ==> exists k :: 0 <= k < |entries| && NamesCookie(Trim(entries[k]), name)
    ensures (exists k :: 0 <= k < |entries| && NamesCookie(Trim(entries[k]), name)) ==> FirstMatch(entries, name, decode).Some?
    decreases |entries|
  {
    if entries != [] {
      var tail := entries[1..];
      FirstMatchFound(tail, name, decode);
      if NamesCookie(Trim(entries[0]), name) {
        assert FirstMatch(entries, name, decode).Some?;
        assert 0 < |entries| && NamesCookie(Trim(entries[0]), name);
      } else {
        assert FirstMatch(entries, name, decode) == FirstMatch(tail, name, decode);
        if FirstMatch(entries, name, decode).Some? {
          var k :| 0 <= k < |tail| && NamesCookie(Trim(tail[k]), name);
          assert entries[k + 1] == tail[k];
        }
        if exists k :: 0 <= k < |entries| && NamesCookie(Trim(entries[k]), name) {
          var k :| 0 <= k < |entries| && NamesCookie(Trim(entries[k]), name);
          assert tail[k - 1] == entries[k];
        }
      }
    }
  }

  /** A value found is the decoded rest of the first entry naming the cookie: no earlier entry names it. */
  lemma {:induction false} FirstMatchIsFirst(entries: seq<string>, name: string, decode: string -> string)
    requires FirstMatch(entries, name, decode).Some?
    ensures exists k :: 0 <= k < |entries| && NamesCookie(Trim(entries[k]), name)
                        && FirstMatch(entries, name, decode).value == decode(Trim(entries[k])[|name| + 1..])
                        && forall j :: 0 <= j < k ==> !NamesCookie(Trim(entries[j]), name)
    decreases |entries|
  {
    if NamesCookie(Trim(entries[0]), name) {
      assert FirstMatch(entries, name, decode).value == decode(Trim(entries[0])[|name| + 1..]);
    } else {
      var tail := entries[1..];
      FirstMatchIsFirst(tail, name, decode);
      var k :| 0 <= k < |tail| && NamesCookie(Trim(tail[k]), name)
               && FirstMatch(tail, name, decode).value == decode(Trim(tail[k])[|name| + 1..])
               && forall j :: 0 <= j < k ==> !NamesCookie(Trim(tail[j]), name);
      assert entries[k + 1] == tail[k];
      forall j | 0 <= j < k + 1
        ensures !NamesCookie(Trim(entries[j]), name)
      {
        if j > 0 {
          assert entries[j] == tail[j - 1];
        }
      }
    }
  }

  /** One step of the search from entry i. */
  lemma FirstMatchStep(entries: seq<string>, i: nat, name: string, decode: string -> string)
    requires i < |entries|
    ensures var c := Trim(entries[i]);
            FirstMatch(entries[i..], name, decode)
            == if NamesCookie(c, name) then Some(decode(c[|name| + 1..])) else FirstMatch(entries[i + 1..], name, decode)
  {
    assert entries[i..][0] == entries[i];
    assert entries[i..][1..] == entries[i + 1..];
  }

  /** What `getCookie(name)` returns for the cookie string: null for an empty string, else the first match. */
  function CookieValue(cookie: string, name: string, decode: string -> string): (r: Option<string>)
    ensures cookie == "" ==> r == None
  {
    if cookie == "" then None else FirstMatch(Split(cookie, ';'), name, decode)
  }

  /**
   * `getCookie`: walk the `;`-separated entries, trim each, and take the decoded value of the
   * first whose prefix is `name=`, leaving the loop at once. `decodeURIComponent` is `decode`.
   */
  method GetCookie(cookie: string, name: string, decode: string -> string) returns (cookieValue: Option<string>)
    ensures cookieValue == CookieValue(cookie, name, decode)
    ensures cookie == "" ==> cookieValue == None
  {
    cookieValue := None;
    if cookie != "" {
      var cookies := Split(cookie, ';');
      var i := 0;
      while i < |cookies|
        invariant 0 <= i <= |cookies|
        invariant cookieValue == None
        invariant FirstMatch(cookies, name, decode) == FirstMatch(cookies[i..], name, decode)
      {
        var c := Trim(cookies[i]);
        FirstMatchStep(cookies, i, name, decode);
        SubstringTestIsPrefix(c, name);
        if Substring(c, 0, |name| + 1) == name + "=" {
          SubstringToEnd(c, |name| + 1);
          cookieValue := Some(decode(Substring(c, |name| + 1, |c|)));
          break;
        }
        i := i + 1;
      }
    }
  }

  /** `getCookie` finds a value exactly when the cookie string is not empty and one of its entries, trimmed, begins with `name=`. */
  lemma CookieFoundIff(cookie: string, name: string, decode: string -> string)
    ensures CookieValue(cookie, name, decode).Some? ==>
              cookie != "" && exists k :: 0 <= k < |Split(cookie, ';')| && NamesCookie(Trim(Split(cookie, ';')[k]), name)
    ensures (cookie != "" && exists k :: 0 <= k < |Split(cookie, ';')| && NamesCookie(Trim(Split(cookie, ';')[k]), name)) ==>
              CookieValue(cookie, name, decode).Some?
  {
    if cookie != "" {
      FirstMatchFound(Split(cookie, ';'), name, decode);
    }
  }

  /** A first match hides every later entry. */
  lemma {:induction false} FirstMatchAppend(es1: seq<string>, es2: seq<string>, name: string, decode: string -> string)
    ensures FirstMatch(es1 + es2, name, decode)
            == if FirstMatch(es1, name, decode).Some? then FirstMatch(es1, name, decode) else FirstMatch(es2, name, decode)
    decreases |es1|
  {
    if es1 == [] {
      assert es1 + es2 == es2;
    } else {
      assert (es1 + es2)[0] == es1[0];
      assert (es1 + es2)[1..] == es1[1..] + es2;
      FirstMatchAppend(es1[1..], es2, name, decode);
    }
  }

  /** Once an entry before a `;` names the cookie, nothing after that `;` matters: later duplicates are ignored. */
  lemma LaterEntriesIgnored(a: string, b: string, name: string, decode: string -> string)
    requires CookieValue(a, name, decode).Some?
    ensures CookieValue(a + ";" + b, name, decode) == CookieValue(a, name, decode)
  {
    SplitAppend(a, b, ';');
    FirstMatchAppend(Split(a, ';'), Split(b, ';'), name, decode);
  }

  /** White space after a `;` does not affect matching. */
  lemma SpaceAfterSeparatorIgnored(a: string, w: string, b: string, name: string, decode: string -> string)
    requires AllSpace(w)
    ensures CookieValue(a + ";" + w + b, name, decode) == CookieValue(a + ";" + b, name, decode)
  {
    assert ';' !in w;
    assert a + ";" + w + b == a + [';'] + (w + b);
    SplitAppend(a, w + b, ';');
    SplitAppend(a, b, ';');
    SplitPrepend(w, b, ';');
    var bs := Split(b, ';');
    TrimIgnoresLeadingSpace(w, bs[0]);
    var ws := [w + bs[0]] + bs[1..];
    assert FirstMatch(ws, name, decode) == FirstMatch(bs, name, decode) by {
      assert ws[1..] == bs[1..];
    }
    FirstMatchAppend(Split(a, ';'), ws, name, decode);
    FirstMatchAppend(Split(a, ';'), bs, name, decode);
  }

  /** An entry whose name only extends the requested one is not a match. */
  lemma ExtendedNameDoesNotMatch(name: string, c: char, rest: string)
    requires c != '='
    ensures !NamesCookie(name + [c] + rest, name)
  {
    var e := name + [c] + rest;
    assert e[|name|] == c;
    assert (name + "=")[|name|] == '=';
  }

  /** A cookie string of one entry without surrounding white space: its value if it names the cookie, else none. */
  lemma SingleEntry(e: string, name: string, decode: string -> string)
    requires e != "" && ';' !in e && !IsJsSpace(e[0]) && !IsJsSpace(e[|e| - 1])
    ensures CookieValue(e, name, decode) == if NamesCookie(e, name) then Some(decode(e[|name| + 1..])) else None
  {
    SplitWithoutSeparator(e, ';');
    assert TrimStart(e) == e;
    assert TrimEnd(e) == e;
    assert Trim(e) == e;
    assert [e][0] == e && [e][1..] == [];
    assert FirstMatch([e][1..], name, decode) == None;
  }

  /** An entry `name=v` with no separator or outer white space gives the decoded v. */
  lemma NamedEntryGivesValue(name: string, v: string, decode: string -> string)
    requires ';' !in name && ';' !in v && name != [] && !IsJsSpace(name[0])
    requires v != [] && !IsJsSpace(v[|v| - 1])
    ensures CookieValue(name + "=" + v, name, decode) == Some(decode(v))
  {
    var e := name + "=" + v;
    assert ';' !in e by {
      assert forall k :: 0 <= k < |e| ==> e[k] == (if k < |name| then name[k] else if k == |name| then '=' else v[k - |name| - 1]);
    }
    assert e[0] == name[0] && e[|e| - 1] == v[|v| - 1];
    SingleEntry(e, name, decode);
    assert e[..|name| + 1] == name + "=";
    assert e[|name| + 1..] == v;
  }

  /** An entry `name` + c + rest, for c other than '=', does not give the `name` cookie. */
  lemma ExtendedEntryGivesNothing(name: string, c: char, rest: string, decode: string -> string)
    requires ';' !in name && ';' !in rest && c != ';' && c != '=' && name != [] && !IsJsSpace(name[0])
    requires rest != [] && !IsJsSpace(rest[|rest| - 1])
    ensures CookieValue(name + [c] + rest, name, decode) == None
  {
    var e := name + [c] + rest;
    assert ';' !in e by {
      assert forall k :: 0 <= k < |e| ==> e[k] == (if k < |name| then name[k] else if k == |name| then c else rest[k - |name| - 1]);
    }
    assert e[0] == name[0] && e[|e| - 1] == rest[|rest| - 1];
    ExtendedNameDoesNotMatch(name, c, rest);
    SingleEntry(e, name, decode);
  }

  /** `csrftokenX=abc` does not give the `csrftoken` cookie; `csrftoken=abc` gives the decoded `abc`. */
  lemma CsrfTokenExample(decode: string -> string)
    ensures CookieValue("csrftokenX=abc", "csrftoken", decode) == None
    ensures CookieValue("csrftoken=abc", "csrftoken", decode) == Some(decode("abc"))
  {
    var name := "csrftoken";
    assert ';' !in name && !IsJsSpace(name[0]);
    ExtendedEntryGivesNothing(name, 'X', "=abc", decode);
    assert name + ['X'] + "=abc" == "csrftokenX=abc";
    NamedEntryGivesValue(name, "abc", decode);
    assert name + "=" + "abc" == "csrftoken=abc";
  }

  // ---------------------------------------------------------------------------
  // formatNumber: num.toString().replace(/\B(?=(\d{3})+(?!\d))/g, ",")

  /** A regular-expression word character: [A-Za-z0-9_]. */
  predicate IsWordChar(c: char)
  {
    ('a' <= c <= 'z') || ('A' <= c <= 'Z') || IsDigit(c) || c == '_'
  }

  /** The character at p is a word character; outside the string there is none. */
  predicate WordAt(s: string, p: int)
  {
    0 <= p < |s| && IsWordChar(s[p])
  }

  /** `\B` at position p: both neighbours are word characters, or neither is. */
  predicate NotBoundary(s: string, p: nat)
    requires p <= |s|
  {
    WordAt(s, p - 1) == WordAt(s, p)
  }

  /** `(?=(\d{3})+(?!\d))` at position p: some positive number of digit triples follows, then no digit. */
  ghost predicate TriplesAhead(s: string, p: nat)
    requires p <= |s|
  {
    exists k :: 1 <= k && p + 3 * k <= |s| && AllDigits(s[p..p + 3 * k]) && (p + 3 * k == |s| || !IsDigit(s[p + 3 * k]))
  }

  /** The regular expression matches (an empty match) at position p. */
  ghost predicate SeparatorAt(s: string, p: nat)
    requires p <= |s|
  {
    NotBoundary(s, p) && TriplesAhead(s, p)
  }

  /** The global replace from position p on: a comma at every matching position, the characters kept. */
  ghost function InsertSeparators(s: string, p: nat): (r: string)
    requires p <= |s|
    ensures AllDigits(s) ==> r == GroupFrom(s, p)
    decreases |s| - p
  {
    SeparatorInNumeral(s, p);
    var mark := if SeparatorAt(s, p) then "," else "";
    if p == |s| then mark else mark + [s[p]] + InsertSeparators(s, p + 1)
  }

  /**
   * `formatNumber` on a non-negative integer below 10^21, whose `toString()` is its decimal
   * numeral (from 10^21 on JavaScript writes it in exponent form).
   */
  ghost function FormatNumber(n: nat): (r: string)
    requires n < 1_000_000_000_000_000_000_000
    ensures r == GroupFrom(NatToString(n), 0)
  {
    InsertSeparators(NatToString(n), 0)
  }

  /** In a numeral the expression matches exactly where a positive multiple of three digits remains, not at the front. */
  lemma SeparatorInNumeral(s: string, p: nat)
    requires p <= |s|
    ensures AllDigits(s) ==> (SeparatorAt(s, p) <==> 0 < p < |s| && (|s| - p) % 3 == 0)
  {
    if AllDigits(s) && 0 < p < |s| && (|s| - p) % 3 == 0 {
      var k := (|s| - p) / 3;
      assert p + 3 * k == |s|;
      assert s[p..p + 3 * k] == s[p..];
      assert TriplesAhead(s, p);
      assert WordAt(s, p - 1) && WordAt(s, p);
    }
    if AllDigits(s) && SeparatorAt(s, p) {
      var k :| 1 <= k && p + 3 * k <= |s| && AllDigits(s[p..p + 3 * k]) && (p + 3 * k == |s| || !IsDigit(s[p + 3 * k]));
      assert p + 3 * k == |s|;
      assert (|s| - p) % 3 == 0;
    }
  }

  /** The reference rule: a comma before every position 0 < p < |s| from which a multiple of three digits remain. */
  function GroupFrom(s: string, p: nat): (r: string)
    requires p <= |s|
    decreases |s| - p
  {
    if p == |s| then ""
    else (if 0 < p && (|s| - p) % 3 == 0 then "," else "") + [s[p]] + GroupFrom(s, p + 1)
  }

  /** The string with every comma deleted. */
  function RemoveCommas(s: string): (r: string)
    ensures ',' !in r
  {
    if s == [] then [] else (if s[0] == ',' then [] else [s[0]]) + RemoveCommas(s[1..])
  }

  lemma RemoveCommasCons(c: char, t: string)
    ensures RemoveCommas([c] + t) == (if c == ',' then [] else [c]) + RemoveCommas(t)
  {
    assert ([c] + t)[1..] == t;
  }

  /** Deleting the commas from the grouping of a comma-free string gives back its suffix from p. */
  lemma {:induction false} GroupFromRemoveCommas(s: string, p: nat)
    requires ',' !in s && p <= |s|
    ensures RemoveCommas(GroupFrom(s, p)) == s[p..]
    decreases |s| - p
  {
    if p < |s| {
      var rest := GroupFrom(s, p + 1);
      GroupFromRemoveCommas(s, p + 1);
      GroupFromStep(s, p);
      RemoveCommasCons(s[p], rest);
      if 0 < p && (|s| - p) % 3 == 0 {
        RemoveCommasCons(',', [s[p]] + rest);
      }
      assert s[p..] == [s[p]] + s[p + 1..];
    }
  }

  /** Deleting the commas from `formatNumber(n)` gives back `n.toString()`, which reads back as n. */
  lemma FormatNumberRemoveCommas(n: nat)
    requires n < 1_000_000_000_000_000_000_000
    ensures RemoveCommas(FormatNumber(n)) == NatToString(n)
    ensures DigitsValue(RemoveCommas(FormatNumber(n))) == n
  {
    var s := NatToString(n);
    assert ',' !in s;
    GroupFromRemoveCommas(s, 0);
    NatToStringValue(n);
  }

  /** One step of the reference rule. */
  lemma GroupFromStep(s: string, p: nat)
    requires p < |s|
    ensures GroupFrom(s, p)
            == if 0 < p && (|s| - p) % 3 == 0 then [','] + ([s[p]] + GroupFrom(s, p + 1)) else [s[p]] + GroupFrom(s, p + 1)
  {
    if 0 < p && (|s| - p) % 3 == 0 {
      assert "," + [s[p]] + GroupFrom(s, p + 1) == [','] + ([s[p]] + GroupFrom(s, p + 1));
    } else {
      assert "" + [s[p]] + GroupFrom(s, p + 1) == [s[p]] + GroupFrom(s, p + 1);
    }
  }

  lemma GroupFromComma(s: string, p: nat)
    requires 0 < p < |s| && (|s| - p) % 3 == 0
    ensures GroupFrom(s, p) == [','] + ([s[p]] + GroupFrom(s, p + 1))
  {
    GroupFromStep(s, p);
  }

  lemma GroupFromPlain(s: string, p: nat)
    requires p < |s| && !(0 < p && (|s| - p) % 3 == 0)
    ensures GroupFrom(s, p) == [s[p]] + GroupFrom(s, p + 1)
  {
    GroupFromStep(s, p);
  }

  /** A four-character numeral gets one comma, after its first digit. */
  lemma GroupFourDigits(s: string)
    requires |s| == 4
    ensures GroupFrom(s, 0) == [s[0]] + ([','] + ([s[1]] + ([s[2]] + ([s[3]] + []))))
  {
    assert GroupFrom(s, 4) == [];
    GroupFromPlain(s, 3);
    GroupFromPlain(s, 2);
    GroupFromComma(s, 1);
    GroupFromPlain(s, 0);
  }

  /** `formatNumber(1234)` is "1,234". */
  lemma FormatNumberExample()
    ensures FormatNumber(1234) == "1,234"
  {
    var s := NatToString(1234);
    assert s == "1234";
    GroupFourDigits(s);
  }

  // ---------------------------------------------------------------------------
  // The recycling estimate: Math.round(trees_display * 20 / 0.8)

  /** The kilograms of recycling reported for a number of trees: 20 kg a tree at 0.8 kg saved per kg recycled. */
  function RecycleKg(treesDisplay: nat): (kg: int)
    ensures kg == 25 * treesDisplay
  {
    MathRound(treesDisplay as real * 20.0 / 0.8)
  }
}
