/** What the three generation routes share: the client key used for rate
    limiting, the response shape, the provider's answer, the fixed error
    texts and the word count of the normalised text. */
module Http {
  import opened Wrappers
  import opened Js
  import opened Strings
  import opened RateLimit

  /** The two request headers the routes read. */
  datatype Headers = Headers(forwardedFor: Option<string>, realIp: Option<string>)

  /** A POST request; `body` is `None` when `request.json()` throws. */
  datatype Request<B> = Request(headers: Headers, body: Option<B>)

  /** A JSON response: a success payload (status 200) or `{error}` with a
      status code. */
  datatype Response<P> = Ok(payload: P) | Error(status: nat, message: string)

  /** What one POST does: the route's rate-limit table afterwards, and the
      response. */
  datatype Outcome<P> = Outcome(table: Table, response: Response<P>)

  /** What the model provider's SDK call yields: the generated text, or an
      exception. */
  datatype ProviderReply = Text(text: string) | Threw

  /** The provider as the routes see it: the composed prompt in, the reply
      out. */
  type Provider = string -> ProviderReply

  const RATE_LIMITED := "Rate limit exceeded. Please try again later."
  const FIELDS_REQUIRED := "Resume content and job description are required"
  const RESUME_TOO_SHORT := "Resume content seems too short. Please provide more details."
  const JOB_TOO_SHORT := "Job description seems too short. Please provide more details."
  const INTERNAL_ERROR := "Internal server error. Please try again later."

  const MIN_RESUME_LENGTH := 50
  const MIN_JOB_LENGTH := 100

  /** `x-forwarded-for || x-real-ip || 'unknown'`: the first truthy header,
      else the one bucket "unknown" that every client without either header
      shares. The key is never empty. */
  function ClientKey(h: Headers): (key: string)
    ensures key != ""
    ensures Truthy(h.forwardedFor) ==> key == h.forwardedFor.value
    ensures !Truthy(h.forwardedFor) && Truthy(h.realIp) ==> key == h.realIp.value
    ensures !Truthy(h.forwardedFor) && !Truthy(h.realIp) ==> key == "unknown"
  {
    OrElse(h.forwardedFor, OrElse(h.realIp, "unknown"))
  }

  /** `text.trim().split(' ').length`: one more than the number of spaces
      left after trimming, so at least 1 even for an empty text. */
  function WordsCount(text: string): (n: nat)
    ensures n == CountChar(Trim(text), ' ') + 1
  {
    |Split(Trim(text), ' ')|
  }

  /** Two space-free words joined by one space and padded with white
      characters count as two words (so "  Hello world  " counts 2). */
  lemma WordsCountOfPaddedPair(p: string, a: string, b: string, q: string)
    requires AllWhite(p) && AllWhite(q)
    requires a != "" && b != "" && !IsWhite(a[0]) && !IsWhite(b[|b| - 1])
    requires ' ' !in a && ' ' !in b
    ensures WordsCount(p + a + " " + b + q) == 2
  {
    var words := a + " " + b;
    assert Trim(p + words + q) == words by {
      assert p + a + " " + b + q == p + words + q;
      TrimOfPadded(p, words, q);
    }
    assert CountChar(words, ' ') == 1 by {
      CountCharAppend(a + " ", b, ' ');
      CountCharAppend(a, " ", ' ');
      CountCharAbsent(a, ' ');
      CountCharAbsent(b, ' ');
    }
    assert p + a + " " + b + q == p + words + q;
  }

  /** Consecutive spaces are not collapsed: between two words, two spaces
      make three words (the middle one empty). */
  lemma WordsCountOfDoubleSpace(a: string, b: string)
    requires a != "" && b != "" && !IsWhite(a[0]) && !IsWhite(b[|b| - 1])
    requires ' ' !in a && ' ' !in b
    ensures WordsCount(a + "  " + b) == 3
  {
    var text := a + "  " + b;
    assert Trim(text) == text by {
      assert text == [] + text + [];
      TrimOfPadded([], text, []);
    }
    assert CountChar(text, ' ') == 2 by {
      CountCharAppend(a + "  ", b, ' ');
      CountCharAppend(a, "  ", ' ');
      CountCharAbsent(a, ' ');
      CountCharAbsent(b, ' ');
    }
  }

  /** An empty or all-white text counts as one word. */
  lemma WordsCountOfBlank(text: string)
    requires AllWhite(text)
    ensures WordsCount(text) == 1
  {
    TrimEmptyIffAllWhite(text);
  }
}
