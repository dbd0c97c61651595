/**
 * The wrapper around a temptaking group page: it accepts a group URL when
 * the text holds "temptaking.ado.sg/group/", normalises it to an https URL
 * ending where the line ends, and loads the group's details only for an
 * accepted URL.
 */
module Temptaking {
  import opened Optional
  import opened PyText
  import opened Json

  /** The literal the URL pattern matches before its `.*`; the dots are escaped, so they match only dots. */
  const GROUP_LITERAL := "temptaking.ado.sg/group/"
  const SCHEME := "https://"

  /** Every accepted URL starts with this. */
  const GROUP_PREFIX := SCHEME + GROUP_LITERAL

  /** `s` holds no newline. */
  predicate NoNewline(s: string) {
    forall k :: 0 <= k < |s| ==> s[k] != '\n'
  }

  /**
   * The first match of `temptaking\.ado\.sg/group/.*` in `url`, prefixed
   * with "https://": the match starts at the first occurrence of the
   * literal and runs to the end of that line, since `.` stops at a newline.
   */
  function NormaliseGroupUrl(url: string): (g: Option<string>)
    ensures g.Some? <==> Contains(url, GROUP_LITERAL)
  {
    match Find(url, GROUP_LITERAL)
    case None => None
    case Some(i) => Some(SCHEME + url[i..LineEnd(url, i + |GROUP_LITERAL|)])
  }

  /** The match itself: the literal and the rest of its line. */
  lemma MatchShape(url: string, i: nat)
    requires OccursAt(url, GROUP_LITERAL, i)
    ensures var r := url[i..LineEnd(url, i + |GROUP_LITERAL|)];
      StartsWith(r, GROUP_LITERAL) && NoNewline(r)
  {
    var j := LineEnd(url, i + |GROUP_LITERAL|);
    var r := url[i..j];
    assert r[..|GROUP_LITERAL|] == url[i..i + |GROUP_LITERAL|];
    forall k | 0 <= k < |r| ensures r[k] != '\n' {
      if k < |GROUP_LITERAL| {
        assert r[k] == GROUP_LITERAL[k];
      } else {
        assert r[k] == url[i + k];
      }
    }
  }

  /** Prefixing the scheme keeps the literal at the front and adds no newline. */
  lemma WithScheme(r: string)
    requires StartsWith(r, GROUP_LITERAL) && NoNewline(r)
    ensures StartsWith(SCHEME + r, GROUP_PREFIX) && NoNewline(SCHEME + r)
  {
    var g := SCHEME + r;
    assert g[..|GROUP_PREFIX|] == SCHEME + r[..|GROUP_LITERAL|];
    forall k | 0 <= k < |g| ensures g[k] != '\n' {
      if k >= |SCHEME| {
        assert g[k] == r[k - |SCHEME|];
      }
    }
  }

  /** An accepted URL is "https://" followed by the literal, and holds no newline. */
  lemma NormalisedShape(url: string)
    requires NormaliseGroupUrl(url).Some?
    ensures var g := NormaliseGroupUrl(url).value;
      StartsWith(g, GROUP_PREFIX) && NoNewline(g)
  {
    var i := Find(url, GROUP_LITERAL).value;
    MatchShape(url, i);
    WithScheme(url[i..LineEnd(url, i + |GROUP_LITERAL|)]);
  }

  /**
   * Behind a prefix without the letter "e" the literal is found right after
   * the prefix: an earlier start would need an "e" as its second letter.
   */
  lemma FindAfterPrefix(p: string, r: string)
    requires forall k :: 0 <= k < |p| ==> p[k] != 'e'
    requires StartsWith(r, GROUP_LITERAL)
    ensures Find(p + r, GROUP_LITERAL) == Some(|p|)
  {
    var s := p + r;
    assert s[|p|..|p| + |GROUP_LITERAL|] == r[..|GROUP_LITERAL|];
    assert OccursAt(s, GROUP_LITERAL, |p|);
    forall j | 0 <= j < |p| ensures !OccursAt(s, GROUP_LITERAL, j) {
      assert s[j + 1] != 'e' by {
        if j + 1 < |p| {
          assert s[j + 1] == p[j + 1];
        } else {
          assert s[j + 1] == r[0] == GROUP_LITERAL[0];
        }
      }
      assert j + |GROUP_LITERAL| <= |s|;
      assert s[j..j + |GROUP_LITERAL|][1] == s[j + 1];
    }
  }

  /** Any "e"-free prefix before the literal normalises away to "https://". */
  lemma NormaliseAfterPrefix(p: string, r: string)
    requires forall k :: 0 <= k < |p| ==> p[k] != 'e'
    requires StartsWith(r, GROUP_LITERAL) && NoNewline(r)
    ensures NormaliseGroupUrl(p + r) == Some(SCHEME + r)
  {
    FindAfterPrefix(p, r);
    var s := p + r;
    var j := LineEnd(s, |p| + |GROUP_LITERAL|);
    assert j == |s|;
    assert s[|p|..|s|] == r;
  }

  /** Normalising an accepted URL again gives it back unchanged. */
  lemma NormaliseIdempotent(url: string)
    requires NormaliseGroupUrl(url).Some?
    ensures NormaliseGroupUrl(NormaliseGroupUrl(url).value) == NormaliseGroupUrl(url)
  {
    var i := Find(url, GROUP_LITERAL).value;
    var r := url[i..LineEnd(url, i + |GROUP_LITERAL|)];
    MatchShape(url, i);
    NormaliseAfterPrefix(SCHEME, r);
  }

  /** The group URL line of the wrapper's test cases. */
  const TEST_LINE := "temptaking.ado.sg/group/test"

  /** The wrapper's test cases: https, http and scheme-less URLs normalise alike. */
  lemma SchemesNormaliseAlike(scheme: string)
    requires scheme == "https://" || scheme == "http://" || scheme == ""
    ensures NormaliseGroupUrl(scheme + TEST_LINE) == Some(SCHEME + TEST_LINE)
  {
    assert TEST_LINE[..|GROUP_LITERAL|] == GROUP_LITERAL;
    assert NoNewline(TEST_LINE);
    assert forall k :: 0 <= k < |scheme| ==> scheme[k] != 'e';
    NormaliseAfterPrefix(scheme, TEST_LINE);
  }

  /** Without the trailing slash there is no group URL. */
  lemma NoTrailingSlashRejected()
    ensures NormaliseGroupUrl("temptaking.ado.sg/group") == None
  {
  }

  /**
   * What `requests.get(groupUrl)` came to: an exception, or the page text
   * with the group fields its script tag yields.
   */
  datatype Fetch =
    | Unreachable
    | Fetched(html: string, groupName: string, groupCode: string, members: seq<Value>)

  /** The marker of a page for an unknown group. */
  const INVALID_CODE := "Invalid code"

  class TemptakingWrapper {
    var valid: bool
    var groupUrl: Option<string>
    var groupName: Option<string>
    var groupId: Option<string>
    var groupMembers: Option<seq<Value>>

    /** `TemptakingWrapper(groupUrl)`: the URL is matched and normalised; the group fields are not set yet. */
    constructor (url: string)
      ensures valid <==> Contains(url, GROUP_LITERAL)
      ensures groupUrl == NormaliseGroupUrl(url)
      ensures groupName == None && groupId == None && groupMembers == None
    {
      valid := false;
      groupUrl := None;
      groupName, groupId, groupMembers := None, None, None;
      var g := NormaliseGroupUrl(url);
      if g.Some? {
        groupUrl := g;
        valid := true;
      }
    }

    /** `isValid()`. */
    predicate IsValid()
      reads this
    {
      valid
    }

    /**
     * `load()`: false without fetching for a URL that was not accepted;
     * false for an unreachable page or an unknown group; otherwise the group
     * fields are set from the page and the result is true.
     */
    method Load(fetch: string -> Fetch) returns (ok: bool)
      requires valid ==> groupUrl.Some?
      modifies this
      ensures !old(valid) ==> !ok
      ensures ok <==> old(valid) && fetch(old(groupUrl).value).Fetched?
                      && !Contains(fetch(old(groupUrl).value).html, INVALID_CODE)
      ensures !ok ==> unchanged(this)
      ensures ok ==> var page := fetch(old(groupUrl).value);
        && valid && groupUrl == old(groupUrl)
        && groupName == Some(page.groupName) && groupId == Some(page.groupCode)
        && groupMembers == Some(page.members)
    {
      if !IsValid() {
        return false;
      }
      var page := fetch(groupUrl.value);
      if page.Unreachable? {
        return false;
      }
      if Find(page.html, INVALID_CODE).Some? {
        return false;
      }
      groupName := Some(page.groupName);
      groupId := Some(page.groupCode);
      groupMembers := Some(page.members);
      return true;
    }
  }
}
