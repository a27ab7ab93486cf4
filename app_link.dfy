/** The link component's attribute defaults: an absolute http(s) URL opens
    in a new tab with a safe `rel`, unless the caller says otherwise. */
module AppLink {
  import opened Common

  /** `/^https?:\/\//`: the link starts with "http://" or "https://", in lower case. */
  predicate IsExternal(to: string)
    ensures IsExternal(to) ==> |to| >= 7 && to[..4] == "http"
  {
    (|to| >= 7 && to[..7] == "http://") || (|to| >= 8 && to[..8] == "https://")
  }

  /** The anchor the component renders. */
  datatype Anchor = Anchor(href: string, target: Option<string>, rel: Option<string>)

  /** `target ?? (isExternal ? "_blank" : undefined)`. */
  function FinalTarget(to: string, target: Option<string>): (t: Option<string>)
    ensures target.Some? ==> t == target
    ensures target.None? ==> (t.Some? <==> IsExternal(to))
  {
    if target.Some? then target else if IsExternal(to) then Some("_blank") else None
  }

  /** `rel ?? (isExternal ? "noopener noreferrer" : undefined)`. */
  function FinalRel(to: string, rel: Option<string>): (r: Option<string>)
    ensures rel.Some? ==> r == rel
    ensures rel.None? ==> (r.Some? <==> IsExternal(to))
  {
    if rel.Some? then rel else if IsExternal(to) then Some("noopener noreferrer") else None
  }

  function Render(to: string, target: Option<string>, rel: Option<string>): (a: Anchor)
    ensures a.href == to
  {
    Anchor(to, FinalTarget(to, target), FinalRel(to, rel))
  }

  /** Exactly the strings behind an "http://" or "https://" prefix are external. */
  lemma ExternalPrefixes(to: string)
    ensures IsExternal(to) <==> exists rest: string :: to == "http://" + rest || to == "https://" + rest
  {
    if IsExternal(to) {
      if |to| >= 7 && to[..7] == "http://" {
        assert to == "http://" + to[7..];
      } else {
        assert to == "https://" + to[8..];
      }
    }
    if exists rest: string :: to == "http://" + rest || to == "https://" + rest {
      var rest: string :| to == "http://" + rest || to == "https://" + rest;
      if to == "http://" + rest {
        assert to[..7] == "http://";
      } else {
        assert to[..8] == "https://";
      }
    }
  }

  /** The test is case-sensitive and wants the scheme's two slashes. */
  lemma ExternalExamples()
    ensures IsExternal("https://example.com") && IsExternal("http://")
    ensures !IsExternal("HTTPS://example.com") && !IsExternal("/levels/1")
    ensures !IsExternal("http:/x") && !IsExternal("mailto:someone@example.com")
  {
    var upper := "HTTPS://example.com";
    assert upper[..7][0] != "http://"[0] && upper[..8][0] != "https://"[0];
    var path := "/levels/1";
    assert path[..7][0] != "http://"[0] && path[..8][0] != "https://"[0];
    var short := "http:/x";
    assert short[..7][6] != "http://"[6];
    var mail := "mailto:someone@example.com";
    assert mail[..7][1] != "http://"[1] && mail[..8][1] != "https://"[1];
  }

  /** A caller's `target` and `rel` always win; without them an external
      link opens in a new tab with "noopener noreferrer", and an internal
      one gets neither attribute. */
  lemma Defaults(to: string, target: Option<string>, rel: Option<string>)
    ensures var a := Render(to, target, rel);
      (target.Some? ==> a.target == target) && (rel.Some? ==> a.rel == rel) &&
      (target.None? ==> (a.target == Some("_blank") <==> IsExternal(to)) && (a.target.None? <==> !IsExternal(to))) &&
      (rel.None? ==> (a.rel == Some("noopener noreferrer") <==> IsExternal(to)) && (a.rel.None? <==> !IsExternal(to)))
  {
  }
}
