/** The e-mail checks shared by registration and password recovery: a
    domain whitelist with an exception for institutional suffixes, and the
    format-then-domain message chosen for a form field. */
module EmailValidation {
  import opened Common

  /** The whitelist of accepted public mail domains, all in lower case. */
  const ValidDomains: seq<string> := [
    "gmail.com", "googlemail.com",
    "hotmail.com", "hotmail.es", "hotmail.co.uk", "hotmail.fr",
    "outlook.com", "outlook.es", "outlook.co.uk",
    "live.com", "live.es", "msn.com",
    "yahoo.com", "yahoo.es", "yahoo.co.uk", "yahoo.fr", "yahoo.com.mx",
    "icloud.com", "me.com", "mac.com",
    "protonmail.com", "proton.me", "tutanota.com", "tutanota.de",
    "aol.com", "zoho.com", "mail.com", "yandex.com", "yandex.ru",
    "gmx.com", "gmx.net", "gmx.de",
    "igtf.com", "fastmail.com", "hey.com",
    "bol.com.br", "terra.com.br", "uol.com.br",
    "telmex.net", "une.net.co", "claro.com.co"
  ]

  /** Suffixes accepted without consulting the whitelist. ".org" is not one
      of them. */
  const InstitutionalSuffixes: seq<string> := [".edu", ".gov", ".edu.ve", ".edu.co", ".edu.mx"]

  const FormatMessage := "The email format is not valid"
  const DomainMessage := "Please use a real email address (Gmail, Hotmail, Outlook, Yahoo, iCloud, etc.)"

  // ---------------------------------------------------------------------
  // String primitives
  // ---------------------------------------------------------------------

  /** The index of the first `c` in `s`, or `|s|` when there is none. */
  function IndexOf(s: string, c: char): (r: nat)
    ensures r <= |s|
    ensures r < |s| <==> c in s
    ensures r < |s| ==> s[r] == c
    ensures forall i :: 0 <= i < r ==> s[i] != c
    decreases |s|
  {
    if s == [] then 0
    else if s[0] == c then 0
    else 1 + IndexOf(s[1..], c)
  }

  /** `toLowerCase` on one character (ASCII letters only). */
  function LowerChar(c: char): char
  {
    if 'A' <= c <= 'Z' then (c as int - 'A' as int + 'a' as int) as char else c
  }

  function ToLower(s: string): (r: string)
    ensures |r| == |s|
    ensures forall i :: 0 <= i < |s| ==> r[i] == LowerChar(s[i])
    decreases |s|
  {
    if s == [] then [] else [LowerChar(s[0])] + ToLower(s[1..])
  }

  /** Lower-casing twice is lower-casing once. */
  lemma ToLowerIdempotent(s: string)
    ensures ToLower(ToLower(s)) == ToLower(s)
  {
    var once := ToLower(s);
    assert forall i :: 0 <= i < |s| ==> ToLower(once)[i] == once[i];
  }

  /** `email.split('@')[1]` for an email containing '@': the text after the
      first '@', up to a second '@' or the end. */
  function DomainPart(email: string): (d: string)
    requires '@' in email
    ensures '@' !in d
  {
    var rest := email[IndexOf(email, '@') + 1..];
    rest[..IndexOf(rest, '@')]
  }

  /** The domain part is determined by the decomposition
      local '@' domain rest, with no '@' in local or domain and rest either
      empty or starting at the next '@'. */
  lemma {:induction false} DomainPartOf(local: string, domain: string, rest: string)
    requires '@' !in local && '@' !in domain
    requires rest == [] || rest[0] == '@'
    ensures '@' in local + "@" + domain + rest
    ensures DomainPart(local + "@" + domain + rest) == domain
  {
    var email := local + "@" + domain + rest;
    assert email[|local|] == '@';
    IndexOfIs(email, '@', |local|);
    var after := email[|local| + 1..];
    assert after == domain + rest;
    if rest == [] {
      assert after == domain;
      IndexOfIs(after, '@', |domain|);
    } else {
      assert after[|domain|] == '@';
      IndexOfIs(after, '@', |domain|);
    }
  }

  lemma {:induction false} IndexOfIs(s: string, c: char, k: nat)
    requires k <= |s|
    requires k < |s| ==> s[k] == c
    requires forall i :: 0 <= i < k ==> s[i] != c
    ensures IndexOf(s, c) == k
  {
    var r := IndexOf(s, c);
    if r < k {
      assert false;
    } else if k < r {
      assert false;
    }
  }

  // ---------------------------------------------------------------------
  // isValidEmailDomain
  // ---------------------------------------------------------------------

  predicate IsInstitutional(domain: string)
  {
    exists k :: 0 <= k < |InstitutionalSuffixes| && EndsWith(domain, InstitutionalSuffixes[k])
  }

  /** The check applied to the lower-cased domain part. */
  predicate AcceptedDomain(domain: string)
  {
    domain != [] && (IsInstitutional(domain) || domain in ValidDomains)
  }

  /** `isValidEmailDomain(email)` */
  predicate IsValidEmailDomain(email: string)
  {
    if email == [] || '@' !in email then false
    else
      var domain := ToLower(DomainPart(email));
      if domain == [] then false
      else if IsInstitutional(domain) then true
      else domain in ValidDomains
  }

  /** The whole contract of `isValidEmailDomain`, in terms of the parts of
      the address: only the lower-cased domain part decides, and it is
      accepted iff it is non-empty and institutional or whitelisted. */
  lemma {:induction false} IsValidEmailDomainSpec(local: string, domain: string, rest: string)
    requires '@' !in local && '@' !in domain
    requires rest == [] || rest[0] == '@'
    ensures IsValidEmailDomain(local + "@" + domain + rest) <==> AcceptedDomain(ToLower(domain))
  {
    DomainPartOf(local, domain, rest);
  }

  /** An address without '@' (the empty string included) is never valid. */
  lemma NoAtRejected(email: string)
    requires '@' !in email
    ensures !IsValidEmailDomain(email)
  {
  }

  /** The case of the domain part never changes the verdict. */
  lemma {:induction false} DomainCaseIrrelevant(local: string, d1: string, d2: string, rest: string)
    requires '@' !in local && '@' !in d1 && '@' !in d2
    requires rest == [] || rest[0] == '@'
    requires ToLower(d1) == ToLower(d2)
    ensures IsValidEmailDomain(local + "@" + d1 + rest) == IsValidEmailDomain(local + "@" + d2 + rest)
  {
    IsValidEmailDomainSpec(local, d1, rest);
    IsValidEmailDomainSpec(local, d2, rest);
  }

  /** A domain ending in an institutional suffix is accepted whatever the
      whitelist says. */
  lemma {:induction false} InstitutionalAccepted(local: string, domain: string, rest: string, k: nat)
    requires '@' !in local && '@' !in domain
    requires rest == [] || rest[0] == '@'
    requires k < |InstitutionalSuffixes| && EndsWith(ToLower(domain), InstitutionalSuffixes[k])
    ensures IsValidEmailDomain(local + "@" + domain + rest)
  {
    IsValidEmailDomainSpec(local, domain, rest);
    assert ToLower(domain) != [];
  }

  /** ".org" is not among the accepted suffixes: a domain ending in ".org"
      is accepted only if the whitelist names it. */
  lemma {:induction false} OrgIsNotInstitutional(domain: string)
    requires EndsWith(domain, ".org")
    ensures !IsInstitutional(domain)
  {
    forall k | 0 <= k < |InstitutionalSuffixes| ensures !EndsWith(domain, InstitutionalSuffixes[k]) {
      var sfx := InstitutionalSuffixes[k];
      assert domain[|domain| - 1] == 'g';
      assert sfx[|sfx| - 1] != 'g';
    }
  }

  /** No whitelisted domain ends in 'g', so none ends in ".org". */
  lemma WhitelistFinal(k: nat)
    requires k < |ValidDomains|
    ensures |ValidDomains[k]| > 0 && ValidDomains[k][|ValidDomains[k]| - 1] != 'g'
  {
  }

  /** A domain ending in ".org" is never accepted: it is not institutional
      and the whitelist has no such entry. */
  lemma {:induction false} OrgNeverAccepted(domain: string)
    requires EndsWith(domain, ".org")
    ensures !AcceptedDomain(domain)
  {
    OrgIsNotInstitutional(domain);
    if domain in ValidDomains {
      var k :| 0 <= k < |ValidDomains| && ValidDomains[k] == domain;
      WhitelistFinal(k);
      assert false;
    }
  }

  /** Every address whose domain part ends in ".org", in any case, is
      refused. */
  lemma {:induction false} OrgAddressRejected(local: string, domain: string, rest: string)
    requires '@' !in local && '@' !in domain
    requires rest == [] || rest[0] == '@'
    requires EndsWith(ToLower(domain), ".org")
    ensures !IsValidEmailDomain(local + "@" + domain + rest)
  {
    IsValidEmailDomainSpec(local, domain, rest);
    OrgNeverAccepted(ToLower(domain));
  }

  // ---------------------------------------------------------------------
  // The format check /^[^\s@]+@[^\s@]+\.[^\s@]+$/
  // ---------------------------------------------------------------------

  /** The characters JavaScript's `\s` class matches. */
  predicate IsJsSpace(c: char)
  {
    c == '\t' || c == '\n' || c == '\U{000B}' || c == '\U{000C}' || c == '\r' || c == ' '
    || c == '\U{00A0}' || c == '\U{1680}' || ('\U{2000}' <= c <= '\U{200A}')
    || c == '\U{2028}' || c == '\U{2029}' || c == '\U{202F}' || c == '\U{205F}'
    || c == '\U{3000}' || c == '\U{FEFF}'
  }

  /** A character of the class `[^\s@]`. */
  predicate PlainChar(c: char)
  {
    !IsJsSpace(c) && c != '@'
  }

  predicate AllPlain(s: string)
  {
    forall i :: 0 <= i < |s| ==> PlainChar(s[i])
  }

  /** The regular expression's meaning: the string splits as
      a '@' b '.' c with a, b, c non-empty runs of `[^\s@]`, where i is the
      position of the '@' and j that of the '.'. */
  ghost predicate MatchesEmailPattern(s: string)
  {
    exists i, j :: SplitsAt(s, i, j)
  }

  ghost predicate SplitsAt(s: string, i: int, j: int)
  {
    0 < i && i + 1 < j && j + 1 < |s| && s[i] == '@' && s[j] == '.'
    && AllPlain(s[..i]) && AllPlain(s[i + 1..j]) && AllPlain(s[j + 1..])
  }

  /** The executable form of the format check: one '@' after a non-empty
      plain run, then a plain domain with a '.' that is neither its first nor
      its last character. */
  predicate HasEmailShape(s: string)
  {
    var at := IndexOf(s, '@');
    0 < at < |s| && AllPlain(s[..at]) && AllPlain(s[at + 1..])
    && exists k :: at + 1 < k < |s| - 1 && s[k] == '.'
  }

  /** The executable check agrees with the regular expression on every
      string, in both directions. */
  lemma {:induction false} ShapeMatchesPattern(s: string)
    ensures HasEmailShape(s) <==> MatchesEmailPattern(s)
  {
    if HasEmailShape(s) {
      var at := IndexOf(s, '@');
      var k :| at + 1 < k < |s| - 1 && s[k] == '.';
      assert s[at + 1..k] == s[at + 1..][..k - at - 1];
      assert s[k + 1..] == s[at + 1..][k - at..];
      assert SplitsAt(s, at, k);
    }
    if MatchesEmailPattern(s) {
      var i, j :| SplitsAt(s, i, j);
      forall m | 0 <= m < i ensures s[m] != '@' {
        assert s[..i][m] == s[m];
      }
      IndexOfIs(s, '@', i);
      forall m | i + 1 <= m < |s| ensures PlainChar(s[m]) {
        if m < j {
          assert s[i + 1..j][m - i - 1] == s[m];
        } else if j < m {
          assert s[j + 1..][m - j - 1] == s[m];
        }
      }
      assert AllPlain(s[i + 1..]);
    }
  }

  /** An address of the right shape has exactly one '@', so its domain part
      is all of the text after it. */
  lemma {:induction false} ShapedDomain(s: string)
    requires HasEmailShape(s)
    ensures '@' in s
    ensures DomainPart(s) == s[IndexOf(s, '@') + 1..]
  {
    var at := IndexOf(s, '@');
    var rest := s[at + 1..];
    forall m | 0 <= m < |rest| ensures rest[m] != '@' {
      assert PlainChar(rest[m]);
    }
    IndexOfIs(rest, '@', |rest|);
  }

  /** For a well-formed address, the domain verdict is the verdict on
      everything after its single '@'. */
  lemma {:induction false} WellFormedVerdict(s: string)
    requires HasEmailShape(s)
    ensures IsValidEmailDomain(s) <==> AcceptedDomain(ToLower(s[IndexOf(s, '@') + 1..]))
  {
    ShapedDomain(s);
  }

  // ---------------------------------------------------------------------
  // getEmailDomainError
  // ---------------------------------------------------------------------

  /** `getEmailDomainError(email)`: no message for an empty field, the format
      message when the shape is wrong, the domain message when the domain is
      refused, and no message otherwise. */
  function GetEmailDomainError(email: string): (r: Option<string>)
    ensures email == [] ==> r == None
    ensures email != [] && !MatchesEmailPattern(email) ==> r == Some(FormatMessage)
    ensures email != [] && MatchesEmailPattern(email) && !IsValidEmailDomain(email) ==> r == Some(DomainMessage)
    ensures email != [] ==> (r == None <==> MatchesEmailPattern(email) && IsValidEmailDomain(email))
    ensures r == None || r == Some(FormatMessage) || r == Some(DomainMessage)
  {
    ShapeMatchesPattern(email);
    if email == [] then None
    else if !HasEmailShape(email) then Some(FormatMessage)
    else if !IsValidEmailDomain(email) then Some(DomainMessage)
    else None
  }
}
