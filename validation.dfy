/** The three form validators of the frontend: an e-mail check by regular
    expression, a minimum password length and a minimum trimmed name length.
    JavaScript strings are sequences of UTF-16 code units, so `.length` is
    `Utf16Length` here. */
module Validation {
  import opened Strings

  /** What `\s` matches and `String.prototype.trim` removes in JavaScript:
      WhiteSpace and LineTerminator. */
  predicate JsSpace(c: char) {
    '\t' <= c <= '\r' || c == ' ' || c == '\U{A0}' || c == '\U{1680}' || '\U{2000}' <= c <= '\U{200A}'
    || c == '\U{2028}' || c == '\U{2029}' || c == '\U{202F}' || c == '\U{205F}' || c == '\U{3000}' || c == '\U{FEFF}'
  }

  function JsTrimStart(s: string): string {
    if s != [] && JsSpace(s[0]) then JsTrimStart(s[1..]) else s
  }

  function JsTrimEnd(s: string): string {
    if s != [] && JsSpace(s[|s| - 1]) then JsTrimEnd(s[..|s| - 1]) else s
  }

  /** `String.prototype.trim`. */
  function JsTrim(s: string): string {
    JsTrimEnd(JsTrimStart(s))
  }

  // ------------------------------------------------------------ e-mail

  /** A character of the class `[^\s@]`. */
  predicate Plain(c: char) {
    !JsSpace(c) && c != '@'
  }

  predicate AllPlain(s: string) {
    forall k :: 0 <= k < |s| ==> Plain(s[k])
  }

  /** `/^[^\s@]+@[^\s@]+\.[^\s@]+$/` matches with the '@' at `i` and the
      escaped dot at `j`. */
  predicate EmailMatchAt(e: string, i: int, j: int) {
    0 < i && i + 1 < j && j + 1 < |e| && e[i] == '@' && e[j] == '.'
    && AllPlain(e[..i]) && AllPlain(e[i + 1..j]) && AllPlain(e[j + 1..])
  }

  /** `validateEmail`: the regular expression matches the whole string for
      some placement of the '@' and of the dot. */
  predicate ValidateEmail(email: string) {
    exists i, j | 0 <= i < |email| && 0 <= j < |email| :: EmailMatchAt(email, i, j)
  }

  function CountOf(s: string, c: char): nat {
    if s == [] then 0 else CountOf(s[..|s| - 1], c) + (if s[|s| - 1] == c then 1 else 0)
  }

  lemma {:induction false} CountOfAppend(a: string, b: string, c: char)
    ensures CountOf(a + b, c) == CountOf(a, c) + CountOf(b, c)
    decreases |b|
  {
    if b == [] {
      assert a + b == a;
    } else {
      assert (a + b)[..|a + b| - 1] == a + b[..|b| - 1];
      CountOfAppend(a, b[..|b| - 1], c);
    }
  }

  lemma {:induction false} CountOfZero(s: string, c: char)
    ensures CountOf(s, c) == 0 <==> c !in s
  {
    if s != [] {
      CountOfZero(s[..|s| - 1], c);
      assert s == s[..|s| - 1] + [s[|s| - 1]];
    }
  }

  /** The shape the regular expression accepts, in words: no whitespace,
      exactly one '@', something before it, and after it a dot that is neither
      the first nor the last character. */
  predicate EmailShape(e: string) {
    var at := IndexOfElem(e, '@');
    (forall k :: 0 <= k < |e| ==> !JsSpace(e[k]))
    && CountOf(e, '@') == 1 && 0 < at < |e|
    && exists d | at + 1 < d < |e| - 1 :: e[d] == '.'
  }

  /** One occurrence between two parts adds one to their counts. */
  lemma CountAround(a: string, b: string, c: char)
    ensures CountOf(a + [c] + b, c) == CountOf(a, c) + 1 + CountOf(b, c)
  {
    CountOfAppend(a + [c], b, c);
    CountOfAppend(a, [c], c);
    assert [c][..0] == [];
  }

  lemma SplitAround(e: string, at: nat)
    requires at < |e|
    ensures e == e[..at] + [e[at]] + e[at + 1..]
  {
  }

  /** Splitting at the first '@': the count is one plus the count after it. */
  lemma CountAtFirst(e: string)
    requires IndexOfElem(e, '@') < |e|
    ensures var at := IndexOfElem(e, '@');
            CountOf(e, '@') == 1 + CountOf(e[at + 1..], '@')
  {
    var at := IndexOfElem(e, '@');
    var a := e[..at];
    assert '@' !in a by {
      forall k | 0 <= k < |a| ensures a[k] != '@' {
        assert a[k] == e[k];
      }
    }
    SplitAround(e, at);
    CountAround(a, e[at + 1..], '@');
    CountOfZero(a, '@');
  }

  /** Every character of a match other than the '@' and the dot is plain. */
  lemma MatchIsPlainElsewhere(e: string, i: int, j: int)
    requires EmailMatchAt(e, i, j)
    ensures forall k :: 0 <= k < |e| && k != i && k != j ==> Plain(e[k])
  {
    forall k | 0 <= k < |e| && k != i && k != j ensures Plain(e[k]) {
      if k < i { assert e[k] == e[..i][k]; }
      else if k < j { assert e[k] == e[i + 1..j][k - i - 1]; }
      else { assert e[k] == e[j + 1..][k - j - 1]; }
    }
  }

  lemma MatchHasShape(e: string, i: int, j: int)
    requires EmailMatchAt(e, i, j)
    ensures EmailShape(e)
  {
    MatchIsPlainElsewhere(e, i, j);
    assert IndexOfElem(e, '@') == i by {
      IndexOfElemAfterFreePrefix(e[..i], e[i + 1..], '@');
      assert e == e[..i] + ['@'] + e[i + 1..];
    }
    CountAtFirst(e);
    var rest := e[i + 1..];
    assert '@' !in rest by {
      assert forall k :: 0 <= k < |rest| ==> rest[k] == e[i + 1 + k];
    }
    CountOfZero(rest, '@');
    assert e[j] == '.';
  }

  lemma ShapeHasMatch(e: string)
    requires EmailShape(e)
    ensures ValidateEmail(e)
  {
    var at := IndexOfElem(e, '@');
    var d :| at + 1 < d < |e| - 1 && e[d] == '.';
    CountAtFirst(e);
    var rest := e[at + 1..];
    CountOfZero(rest, '@');
    assert forall k :: at < k < |e| ==> e[k] != '@' by {
      forall k | at < k < |e| ensures e[k] != '@' {
        assert e[k] == rest[k - at - 1];
      }
    }
    assert EmailMatchAt(e, at, d);
  }

  lemma ValidateEmailIsShape(e: string)
    ensures ValidateEmail(e) <==> EmailShape(e)
  {
    if ValidateEmail(e) {
      var i, j :| 0 <= i < |e| && 0 <= j < |e| && EmailMatchAt(e, i, j);
      MatchHasShape(e, i, j);
    }
    if EmailShape(e) {
      ShapeHasMatch(e);
    }
  }

  // ------------------------------------------------------------ password and name

  /** `validatePassword`. */
  predicate ValidatePassword(password: string) {
    Utf16Length(password) >= 8
  }

  /** `validateFullName`. */
  predicate ValidateFullName(name: string) {
    Utf16Length(JsTrim(name)) >= 2
  }

  predicate AllJsSpace(s: string) {
    forall k :: 0 <= k < |s| ==> JsSpace(s[k])
  }

  lemma {:induction false} TrimStartOfPadded(w: string, s: string)
    requires AllJsSpace(w)
    ensures JsTrimStart(w + s) == JsTrimStart(s)
    decreases |w|
  {
    if w == [] {
      assert w + s == s;
    } else {
      assert (w + s)[1..] == w[1..] + s;
      TrimStartOfPadded(w[1..], s);
    }
  }

  lemma {:induction false} TrimEndOfPadded(s: string, w: string)
    requires AllJsSpace(w)
    ensures JsTrimEnd(s + w) == JsTrimEnd(s)
    decreases |w|
  {
    if w == [] {
      assert s + w == s;
    } else {
      assert (s + w)[..|s + w| - 1] == s + w[..|w| - 1];
      TrimEndOfPadded(s, w[..|w| - 1]);
    }
  }

  /** Trimming the start of `x + w` when `x` has a non-space character only
      touches `x`; when it has none, only `w` is left to trim. */
  lemma {:induction false} TrimStartAppend(x: string, w: string)
    ensures JsTrimStart(x + w) == if JsTrimStart(x) == [] then JsTrimStart(w) else JsTrimStart(x) + w
  {
    if x == [] {
      assert x + w == w;
    } else {
      assert (x + w)[0] == x[0];
      assert (x + w)[1..] == x[1..] + w;
      if JsSpace(x[0]) {
        TrimStartAppend(x[1..], w);
      }
    }
  }

  /** Whitespace around a name never changes whether it is accepted. */
  lemma FullNameIgnoresPadding(w1: string, name: string, w2: string)
    requires AllJsSpace(w1) && AllJsSpace(w2)
    ensures JsTrim(w1 + name + w2) == JsTrim(name)
    ensures ValidateFullName(w1 + name + w2) == ValidateFullName(name)
  {
    assert w1 + name + w2 == w1 + (name + w2);
    TrimStartOfPadded(w1, name + w2);
    TrimStartAppend(name, w2);
    var u := JsTrimStart(name);
    if u == [] {
      TrimStartOfPadded(w2, []);
      assert w2 + [] == w2;
    } else {
      TrimEndOfPadded(u, w2);
    }
  }

  /** A name that is empty or all whitespace is rejected. */
  lemma BlankNameRejected(name: string)
    requires AllJsSpace(name)
    ensures !ValidateFullName(name)
  {
    TrimStartOfPadded(name, []);
    assert name + [] == name;
    assert JsTrimStart([]) == [];
  }

  /** Appending never makes a valid password invalid. */
  lemma PasswordExtends(password: string, more: string)
    requires ValidatePassword(password)
    ensures ValidatePassword(password + more)
  {
    Utf16LengthAppend(password, more);
  }

  // ------------------------------------------------------------ test cases

  /** Plain parts joined by an '@' and a dot always match. */
  lemma PartsMatch(a: string, d: string, t: string)
    requires a != [] && d != [] && t != []
    requires AllPlain(a) && AllPlain(d) && AllPlain(t)
    ensures ValidateEmail(a + "@" + d + "." + t)
  {
    var e := a + "@" + d + "." + t;
    var i, j := |a|, |a| + 1 + |d|;
    assert e[..i] == a;
    assert e[i + 1..j] == d;
    assert e[j + 1..] == t;
    assert EmailMatchAt(e, i, j);
  }

  /** Lower-case letters and dots are plain. */
  lemma LettersPlain(s: string)
    requires forall k :: 0 <= k < |s| ==> 'a' <= s[k] <= 'z' || s[k] == '.'
    ensures AllPlain(s)
  {
  }

  /** The accepted addresses of the frontend's tests. */
  lemma ValidEmailAccepted()
    ensures ValidateEmail("test@example.com")
  {
    LettersPlain("test");
    LettersPlain("example");
    LettersPlain("com");
    PartsMatch("test", "example", "com");
    assert "test" + "@" + "example" + "." + "com" == "test@example.com";
  }

  lemma DottedEmailAccepted()
    ensures ValidateEmail("user.name@domain.co.uk")
  {
    LettersPlain("user.name");
    LettersPlain("domain");
    LettersPlain("co.uk");
    PartsMatch("user.name", "domain", "co.uk");
    assert "user.name" + "@" + "domain" + "." + "co.uk" == "user.name@domain.co.uk";
  }

  /** Where the '@' of a string is, it must be for a match. */
  lemma NoMatchWithoutAt(e: string, ats: set<int>)
    requires forall k :: 0 <= k < |e| && e[k] == '@' ==> k in ats
    requires forall i, j :: i in ats && 0 <= j < |e| ==> !EmailMatchAt(e, i, j)
    ensures !ValidateEmail(e)
  {
  }

  lemma InvalidEmailsRejected()
    ensures !ValidateEmail("invalid-email")
    ensures !ValidateEmail("test@")
    ensures !ValidateEmail("@example.com")
  {
    NoMatchWithoutAt("invalid-email", {});
    NoMatchWithoutAt("test@", {4});
    NoMatchWithoutAt("@example.com", {0});
  }

  lemma PasswordCases()
    ensures ValidatePassword("password123") && ValidatePassword("12345678")
    ensures !ValidatePassword("1234567") && !ValidatePassword("pass")
  {
    Utf16LengthBmp("password123");
    Utf16LengthBmp("12345678");
    Utf16LengthBmp("1234567");
    Utf16LengthBmp("pass");
  }

  lemma FullNameCases()
    ensures ValidateFullName("John Doe") && ValidateFullName("Jane")
    ensures !ValidateFullName("") && !ValidateFullName(" ") && !ValidateFullName("J")
  {
    assert JsTrim("John Doe") == "John Doe";
    assert JsTrim("Jane") == "Jane";
    Utf16LengthBmp("John Doe");
    Utf16LengthBmp("Jane");
    BlankNameRejected("");
    BlankNameRejected(" ");
    assert JsTrim("J") == "J";
    Utf16LengthBmp("J");
  }
}
