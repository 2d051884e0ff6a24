/**
 * The enrichment string helpers: the domain of an e-mail address, the
 * public-mailbox test and the three website signals found in a page's text.
 */
module Enrichment {
  import opened Strings

  /** The free-mail providers whose domains are not a company's own. */
  const PublicEmailDomains: set<string> :=
    {"gmail.com", "yahoo.com", "outlook.com", "hotmail.com", "icloud.com"}

  /** The keys of the signal dictionary, as stored in the enrichment table. */
  const HasPricing := "has_pricing"
  const HasCareers := "has_careers"
  const MentionsAi := "mentions_ai"

  /** `s.split(sep)` for a one-character separator. */
  function Split(s: string, sep: char): (parts: seq<string>)
    ensures |parts| >= 1
  {
    if s == [] then [""]
    else
      var rest := Split(s[1..], sep);
      if s[0] == sep then [""] + rest else [[s[0]] + rest[0]] + rest[1..]
  }

  /**
   * The last piece of a split is the text after the last separator: it holds
   * no separator, it is a suffix of the input, and it is either the whole
   * input or preceded by a separator.
   */
  lemma {:induction false} SplitLast(s: string, sep: char)
    ensures var parts := Split(s, sep); var last := parts[|parts| - 1];
      && sep !in last
      && |last| <= |s| && s[|s| - |last|..] == last
      && (|last| < |s| ==> s[|s| - |last| - 1] == sep)
      && (|parts| == 1 ==> last == s)
      && (|parts| > 1 ==> |last| < |s|)
  {
    if s != [] {
      SplitLast(s[1..], sep);
      var rest := Split(s[1..], sep);
      var tail := rest[|rest| - 1];
      var last := Split(s, sep)[|Split(s, sep)| - 1];
      if s[0] == sep || |rest| > 1 {
        assert last == tail;
        assert s[|s| - |tail|..] == s[1..][|s| - 1 - |tail|..];
        if |tail| < |s| - 1 {
          assert s[|s| - |tail| - 1] == s[1..][|s| - 1 - |tail| - 1];
        }
      } else {
        assert Split(s, sep) == [[s[0]] + rest[0]];
        assert [s[0]] + s[1..] == s;
      }
    }
  }

  /** `email.split("@")[-1].lower()` */
  function ExtractDomain(email: string): string
  {
    var parts := Split(email, '@');
    Lower(parts[|parts| - 1])
  }

  /**
   * The domain is the lower-cased text after the last `@`, or the whole
   * address lower-cased when there is no `@`.
   */
  lemma ExtractDomainIsAfterLastAt(email: string)
    ensures '@' !in email ==> ExtractDomain(email) == Lower(email)
    ensures forall k :: 0 <= k < |email| && email[k] == '@' && '@' !in email[k + 1..] ==>
      ExtractDomain(email) == Lower(email[k + 1..])
  {
    SplitLast(email, '@');
    var parts := Split(email, '@');
    var last := parts[|parts| - 1];
    forall k | 0 <= k < |email| && email[k] == '@' && '@' !in email[k + 1..]
      ensures last == email[k + 1..]
    {
      var m := |email| - |last|;
      // the last piece starts right after the last `@`
      assert m - 1 <= k;
      assert m - 1 >= k;
    }
  }

  /** The domain holds no `@` and no upper-case letter. */
  lemma ExtractDomainShape(email: string)
    ensures '@' !in ExtractDomain(email)
    ensures NoUpper(ExtractDomain(email))
  {
    SplitLast(email, '@');
    var parts := Split(email, '@');
    var last := parts[|parts| - 1];
  }

  /** Extracting twice is extracting once. */
  lemma ExtractDomainIdempotent(email: string)
    ensures ExtractDomain(ExtractDomain(email)) == ExtractDomain(email)
  {
    var d := ExtractDomain(email);
    ExtractDomainShape(email);
    ExtractDomainIsAfterLastAt(d);
    LowerOfNoUpper(d);
  }

  /** `domain in PUBLIC_EMAIL_DOMAINS` */
  predicate IsPublicEmail(domain: string) {
    domain in PublicEmailDomains
  }

  /**
   * Membership is exact and case-sensitive: every public domain is
   * lower-case, so a domain with an upper-case letter is never public.
   */
  lemma PublicEmailIsCaseSensitive(domain: string)
    requires !NoUpper(domain)
    ensures !IsPublicEmail(domain)
  {
    var i :| 0 <= i < |domain| && IsUpperAscii(domain[i]);
    forall d | d in PublicEmailDomains
      ensures NoUpper(d)
    {
    }
  }

  /** The domain of `user@host` is `host` lower-cased, whatever `user` holds. */
  lemma ExtractDomainOfAddress(user: string, host: string)
    requires '@' !in host
    ensures ExtractDomain(user + "@" + host) == Lower(host)
  {
    var email := user + "@" + host;
    ExtractDomainIsAfterLastAt(email);
    assert email[|user|] == '@';
    assert email[|user| + 1..] == host;
  }

  /** An address at a public provider is recognised whatever its user part. */
  lemma PublicProviderAddress(user: string, provider: string)
    requires provider in PublicEmailDomains
    ensures IsPublicEmail(ExtractDomain(user + "@" + provider))
  {
    assert '@' !in provider && NoUpper(provider) by {
      if provider == "gmail.com" {
      } else if provider == "yahoo.com" {
      } else if provider == "outlook.com" {
      } else if provider == "hotmail.com" {
      } else {
        assert provider == "icloud.com";
      }
    }
    ExtractDomainOfAddress(user, provider);
    LowerOfNoUpper(provider);
  }

  function Flag(b: bool): (n: int)
    ensures n == 0 || n == 1
    ensures n == 1 <==> b
  {
    if b then 1 else 0
  }

  /** The website signals of a page, as a dictionary of 0/1 flags. */
  function ExtractSignals(pageText: string): (signals: map<string, int>)
    ensures signals.Keys == {HasPricing, HasCareers, MentionsAi}
    ensures forall k :: k in signals ==> signals[k] == 0 || signals[k] == 1
    ensures signals[HasPricing] == 1 <==> Contains(pageText, "pricing")
    ensures signals[HasCareers] == 1 <==> Contains(pageText, "careers") || Contains(pageText, "jobs")
    ensures signals[MentionsAi] == 1 <==>
      Contains(pageText, "ai") || Contains(pageText, "artificial intelligence")
  {
    map[
      HasPricing := Flag(Contains(pageText, "pricing")),
      HasCareers := Flag(Contains(pageText, "careers") || Contains(pageText, "jobs")),
      MentionsAi := Flag(Contains(pageText, "ai") || Contains(pageText, "artificial intelligence"))
    ]
  }

  /** More text never clears a flag: the signals are monotone in the page text. */
  lemma SignalsMonotone(t: string, t2: string)
    requires Contains(t2, t)
    ensures forall k :: k in ExtractSignals(t) ==> ExtractSignals(t)[k] <= ExtractSignals(t2)[k]
  {
    forall p | Contains(t, p)
      ensures Contains(t2, p)
    {
      ContainsTransitive(t2, t, p);
    }
  }

  /** `"ai"` is a bare substring test: any page saying "email" mentions AI. */
  lemma SignalsAiIsSubstring(pageText: string)
    requires Contains(pageText, "email")
    ensures ExtractSignals(pageText)[MentionsAi] == 1
  {
    assert OccursAt("email", "ai", 2);
    ContainsTransitive(pageText, "email", "ai");
  }
}
