/** The engine's small utilities: rewriting local URLs when running inside
    Docker, deciding whether a PDF holds text, and a short hash of a string.
    The environment variable, the page texts, the salt and the MD5 digest
    are parameters. */
module EngineUtils {
  import opened Wrappers
  import Py

  // ---------------------------------------------------------------------------
  // get_docker_safe_url
  // ---------------------------------------------------------------------------

  const LocalhostUrl: string := "http://localhost"
  const LoopbackUrl: string := "http://127.0.0.1"
  const DockerHostUrl: string := "http://host.docker.internal"

  /** get_docker_safe_url(base_url), given os.getenv("RUNNING_IN_DOCKER"). */
  function DockerSafeUrl(baseUrl: string, runningInDocker: Option<string>): (r: string)
    ensures runningInDocker != Some("true") ==> r == baseUrl
  {
    if runningInDocker == Some("true") then
      Py.Replace(Py.Replace(baseUrl, LocalhostUrl, DockerHostUrl), LoopbackUrl, DockerHostUrl)
    else baseUrl
  }

  /** A URL that names neither local address is left alone, in Docker too. */
  lemma DockerSafeUrlKeepsRemote(baseUrl: string, runningInDocker: Option<string>)
    requires !Py.Contains(baseUrl, LocalhostUrl) && !Py.Contains(baseUrl, LoopbackUrl)
    ensures DockerSafeUrl(baseUrl, runningInDocker) == baseUrl
  {
    Py.ReplaceAbsent(baseUrl, LocalhostUrl, DockerHostUrl);
    Py.ReplaceAbsent(baseUrl, LoopbackUrl, DockerHostUrl);
  }

  /** Inside Docker, a URL starting with a local address and otherwise free
      of both has that address replaced by the Docker host. */
  lemma DockerSafeUrlRewritesLocal(local: string, rest: string)
    requires local == LocalhostUrl || local == LoopbackUrl
    requires !Py.Contains(rest, LocalhostUrl) && !Py.Contains(rest, LoopbackUrl)
    ensures DockerSafeUrl(local + rest, Some("true")) == DockerHostUrl + rest
  {
    var s := local + rest;
    assert s[..|local|] == local;
    assert s[|local|..] == rest;
    Py.ReplaceAbsent(rest, LocalhostUrl, DockerHostUrl);
    Py.ReplaceAbsent(rest, LoopbackUrl, DockerHostUrl);
    if local == LocalhostUrl {
      assert Py.Replace(s, LocalhostUrl, DockerHostUrl) == DockerHostUrl + rest;
      DockerHostPrefix(rest, LoopbackUrl);
    } else {
      assert s[..|LocalhostUrl|] != LocalhostUrl by {
        assert s[7] == '1' && LocalhostUrl[7] == 'l';
      }
      LoopbackUntouched(rest);
      assert Py.Replace(s, LocalhostUrl, DockerHostUrl) == s;
      assert Py.Replace(s, LoopbackUrl, DockerHostUrl) == DockerHostUrl + rest;
    }
  }

  /** Replacing the localhost pattern leaves the loopback prefix and the
      text after it alone. */
  lemma LoopbackUntouched(rest: string)
    requires !Py.Contains(rest, LocalhostUrl)
    ensures Py.Replace(LoopbackUrl + rest, LocalhostUrl, DockerHostUrl) == LoopbackUrl + rest
  {
    Py.ReplaceAbsent(rest, LocalhostUrl, DockerHostUrl);
    NoPatternAcross(LoopbackUrl, rest, LocalhostUrl);
    Py.ReplaceAbsent(LoopbackUrl + rest, LocalhostUrl, DockerHostUrl);
  }

  /** The Docker host followed by text free of a local address is free of
      it too. */
  lemma DockerHostPrefix(rest: string, pat: string)
    requires pat == LocalhostUrl || pat == LoopbackUrl
    requires !Py.Contains(rest, pat)
    ensures Py.Replace(DockerHostUrl + rest, pat, DockerHostUrl) == DockerHostUrl + rest
  {
    NoPatternAcross(DockerHostUrl, rest, pat);
    Py.ReplaceAbsent(DockerHostUrl + rest, pat, DockerHostUrl);
  }

  /** A local-address pattern starts with "http://" followed by a character
      the prefix never holds after a "http://" of its own, so it cannot
      occur in prefix + rest unless it occurs in rest. */
  lemma NoPatternAcross(prefix: string, rest: string, pat: string)
    requires prefix == LoopbackUrl || prefix == DockerHostUrl
    requires pat == LocalhostUrl || pat == LoopbackUrl
    requires prefix != pat
    requires !Py.Contains(rest, pat)
    ensures !Py.Contains(prefix + rest, pat)
  {
    var s := prefix + rest;
    forall j: nat | j <= |s|
      ensures !Py.OccursAt(s, pat, j)
    {
      if j >= |prefix| {
        NoPatternInRest(prefix, rest, pat, j);
      } else {
        NoPatternInPrefix(prefix, rest, pat, j);
      }
    }
  }

  /** A match starting in rest would be a match in rest. */
  lemma NoPatternInRest(prefix: string, rest: string, pat: string, j: nat)
    requires !Py.Contains(rest, pat)
    requires |prefix| <= j
    ensures !Py.OccursAt(prefix + rest, pat, j)
  {
    var s := prefix + rest;
    if j + |pat| <= |s| {
      var m := j - |prefix|;
      assert s[|prefix|..] == rest;
      assert s[j..j + |pat|] == rest[m..m + |pat|];
      assert !Py.OccursAt(rest, pat, m);
    }
  }

  /** No match of a local-address pattern starts inside the prefix. */
  lemma NoPatternInPrefix(prefix: string, rest: string, pat: string, j: nat)
    requires prefix == LoopbackUrl || prefix == DockerHostUrl
    requires pat == LocalhostUrl || pat == LoopbackUrl
    requires prefix != pat
    requires j < |prefix|
    ensures !Py.OccursAt(prefix + rest, pat, j)
  {
    var s := prefix + rest;
    if j + |pat| <= |s| {
      var w := s[j..j + |pat|];
      HeadPositions(prefix, j);
      if j == 0 {
        assert w[7] == s[7] == prefix[7] != pat[7];
      } else if prefix == DockerHostUrl && j == 7 {
        assert w[1] == s[8] == prefix[8] != pat[1];
      } else {
        assert w[0] == s[j] == prefix[j] != pat[0];
      }
    }
  }

  /** Where an "h" sits in the prefix: only at 0, or, in the Docker host,
      at the "h" of "host". */
  lemma HeadPositions(prefix: string, j: nat)
    requires prefix == LoopbackUrl || prefix == DockerHostUrl
    requires j < |prefix|
    ensures prefix[j] == 'h' ==> j == 0 || (prefix == DockerHostUrl && j == 7)
  {
    assert forall k :: 1 <= k < |LoopbackUrl| ==> LoopbackUrl[k] != 'h';
    assert forall k :: 1 <= k < |DockerHostUrl| && k != 7 ==> DockerHostUrl[k] != 'h';
  }

  // ---------------------------------------------------------------------------
  // is_text_pdf
  // ---------------------------------------------------------------------------

  /** A page whose text is not all whitespace. */
  predicate HasText(page: string) {
    Py.Strip(page) != ""
  }

  /** A page has text exactly when some character of it is not whitespace. */
  lemma HasTextIff(page: string)
    ensures HasText(page) <==> exists i :: 0 <= i < |page| && !Py.IsSpace(page[i])
  {
    Py.StripEmptyIff(page);
  }

  /** The number of elements that satisfy p. */
  function CountWhere<T>(xs: seq<T>, p: T -> bool): (n: nat)
    ensures n <= |xs|
  {
    if xs == [] then 0
    else CountWhere(xs[..|xs| - 1], p) + (if p(xs[|xs| - 1]) then 1 else 0)
  }

  /** The number of pages with text. */
  function TextPages(pages: seq<string>): (n: nat)
    ensures n <= |pages|
  {
    CountWhere(pages, HasText)
  }

  /** Counting over two runs adds up. */
  lemma {:induction false} CountAppend<T>(a: seq<T>, b: seq<T>, p: T -> bool)
    ensures CountWhere(a + b, p) == CountWhere(a, p) + CountWhere(b, p)
    decreases |b|
  {
    if b == [] {
      assert a + b == a;
    } else {
      var n := |b| - 1;
      assert (a + b)[..|a + b| - 1] == a + b[..n];
      CountAppend(a, b[..n], p);
    }
  }

  /** The count is the length exactly when every element satisfies p. */
  lemma {:induction false} CountAll<T>(xs: seq<T>, p: T -> bool)
    ensures CountWhere(xs, p) == |xs| <==> forall i :: 0 <= i < |xs| ==> p(xs[i])
    decreases |xs|
  {
    if xs != [] {
      var n := |xs| - 1;
      var init := xs[..n];
      CountAll(init, p);
      assert forall i :: 0 <= i < n ==> init[i] == xs[i];
    }
  }

  /** The count is 0 exactly when no element satisfies p. */
  lemma {:induction false} CountNone<T>(xs: seq<T>, p: T -> bool)
    ensures CountWhere(xs, p) == 0 <==> forall i :: 0 <= i < |xs| ==> !p(xs[i])
    decreases |xs|
  {
    if xs != [] {
      var n := |xs| - 1;
      var init := xs[..n];
      CountNone(init, p);
      assert forall i :: 0 <= i < n ==> init[i] == xs[i];
    }
  }

  /** A document whose pages all have text is a text PDF, one without any
      page with text is not, and neither is one where exactly half the pages
      have text. */
  lemma TextPdfCases(pages: seq<string>)
    ensures (forall i :: 0 <= i < |pages| ==> HasText(pages[i])) ==> (|pages| > 0 <==> 2 * TextPages(pages) > |pages|)
    ensures (forall i :: 0 <= i < |pages| ==> !HasText(pages[i])) ==> !(2 * TextPages(pages) > |pages|)
    ensures forall more: seq<string> ::
              (|more| == |pages| && (forall i :: 0 <= i < |more| ==> !HasText(more[i]))
               && (forall i :: 0 <= i < |pages| ==> HasText(pages[i])))
              ==> !(2 * TextPages(pages + more) > |pages + more|)
  {
    CountAll(pages, HasText);
    CountNone(pages, HasText);
    forall more: seq<string> | |more| == |pages| && (forall i :: 0 <= i < |more| ==> !HasText(more[i])) &&
                                (forall i :: 0 <= i < |pages| ==> HasText(pages[i]))
      ensures !(2 * TextPages(pages + more) > |pages + more|)
    {
      CountAppend(pages, more, HasText);
      CountNone(more, HasText);
    }
  }

  /** is_text_pdf, on the texts page.get_text() gives for each page: false
      without pages, otherwise whether more than half the pages have text. */
  method IsTextPdf(pages: seq<string>) returns (b: bool)
    ensures b <==> |pages| > 0 && 2 * TextPages(pages) > |pages|
  {
    var total := |pages|;
    if total == 0 {
      return false;
    }
    var textPages := 0;
    for i := 0 to total
      invariant textPages == CountWhere(pages[..i], HasText)
    {
      assert pages[..i + 1][..i] == pages[..i];
      if Py.Strip(pages[i]) != "" {
        textPages := textPages + 1;
      }
    }
    assert pages[..total] == pages;
    b := 2 * textPages > total;
  }

  // ---------------------------------------------------------------------------
  // hashstr
  // ---------------------------------------------------------------------------

  predicate IsHexDigit(c: char) {
    ('0' <= c <= '9') || ('a' <= c <= 'f')
  }

  /** hexdigest() of an MD5 hash: 32 lowercase hexadecimal digits. */
  type HexDigest = s: string | |s| == 32 && forall i :: 0 <= i < |s| ==> IsHexDigit(s[i])
    witness "00000000000000000000000000000000"

  /** hashstr(input_string, length, with_salt): with a salt, the salt text
      (str(time.time() + random.random())) is appended first; the result is
      hash[:length], Python's slice of the 32-digit digest. */
  function Hashstr(input: string, length: int, withSalt: bool, salt: string, md5: string -> HexDigest): (r: string)
    ensures |r| <= 32
    ensures forall i :: 0 <= i < |r| ==> IsHexDigit(r[i])
    ensures r == md5(if withSalt then input + salt else input)[..|r|]
    ensures 0 <= length <= 32 ==> |r| == length
    ensures length > 32 ==> |r| == 32
    ensures -32 <= length < 0 ==> |r| == 32 + length
    ensures length < -32 ==> r == ""
  {
    var text := if withSalt then input + salt else input;
    var hash := md5(text);
    Py.SliceTo(hash, length)
  }

  /** The default hashstr(s): the first 8 digits of the unsalted digest. */
  lemma HashstrDefault(input: string, salt: string, md5: string -> HexDigest)
    ensures Hashstr(input, 8, false, salt, md5) == md5(input)[..8]
  {
  }
}
