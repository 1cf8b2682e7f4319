/** `get_wikimapia_links_from_html`: fetch one listing page and keep the links
    of its "span3" containers that lead to detail pages. */
module LinkCollector {
  import opened Results
  import opened PyText

  /** An `<a>` element inside a `div.span3`, reduced to its attributes. */
  datatype Anchor = Anchor(attrs: map<string, string>)

  /** The fetched listing page: the status, the raw text, and the anchors of its
      `div.span3` containers in document order, as the HTML parser finds them. */
  datatype Listing = Listing(status: int, text: string, anchors: seq<Anchor>)

  /** `find_all('a', attrs={'href': True, 'data-url': False})`: an anchor with an
      `href` and without a `data-url` marker. */
  predicate IsDetailLink(a: Anchor) {
    "href" in a.attrs && "data-url" !in a.attrs
  }

  /** The `href` of every detail-link anchor, in document order. */
  function DetailLinks(anchors: seq<Anchor>): (links: seq<string>)
    ensures |links| <= |anchors|
    ensures |anchors| == 1 ==>
              links == if IsDetailLink(anchors[0]) then [anchors[0].attrs["href"]] else []
  {
    if anchors == [] then []
    else
      var first := if IsDetailLink(anchors[0]) then [anchors[0].attrs["href"]] else [];
      first + DetailLinks(anchors[1..])
  }

  /** `check_last_page` followed by the filter: the URL is the concatenation of the
      parts; a status other than 200, or an empty page, yields no list at all. */
  function GetWikimapiaLinks(urlParts: seq<string>, get: string -> Listing): (r: Option<seq<string>>)
    ensures var page := get(Concat(urlParts));
            && (r.None? <==> page.status != 200 || page.text == "")
            && (r.Some? ==> r.value == DetailLinks(page.anchors))
  {
    var page := get(Concat(urlParts));
    if page.status != 200 || page.text == "" then None
    else Some(DetailLinks(page.anchors))
  }

  /** The filter commutes with concatenation, so it keeps document order: the
      links of a page are the links of its first part followed by those of the rest. */
  lemma {:induction false} DetailLinksAppend(xs: seq<Anchor>, ys: seq<Anchor>)
    ensures DetailLinks(xs + ys) == DetailLinks(xs) + DetailLinks(ys)
    decreases |xs|
  {
    if xs == [] {
      assert xs + ys == ys;
    } else {
      assert (xs + ys)[1..] == xs[1..] + ys;
      DetailLinksAppend(xs[1..], ys);
    }
  }

  /** A link is returned exactly when some anchor carrying it passes the filter. */
  lemma {:induction false} DetailLinksMembers(anchors: seq<Anchor>, h: string)
    ensures h in DetailLinks(anchors) <==>
            exists i :: 0 <= i < |anchors| && IsDetailLink(anchors[i]) && anchors[i].attrs["href"] == h
    decreases |anchors|
  {
    if anchors != [] {
      DetailLinksMembers(anchors[1..], h);
      if h in DetailLinks(anchors[1..]) {
        var i :| 0 <= i < |anchors[1..]| && IsDetailLink(anchors[1..][i]) && anchors[1..][i].attrs["href"] == h;
        assert anchors[i + 1] == anchors[1..][i];
      }
      if exists i :: 0 <= i < |anchors| && IsDetailLink(anchors[i]) && anchors[i].attrs["href"] == h {
        var i :| 0 <= i < |anchors| && IsDetailLink(anchors[i]) && anchors[i].attrs["href"] == h;
        if i > 0 {
          assert anchors[1..][i - 1] == anchors[i];
        }
      }
    }
  }

  /** Number of anchors that carry an `href`. */
  function WithHref(anchors: seq<Anchor>): nat {
    if anchors == [] then 0
    else (if "href" in anchors[0].attrs then 1 else 0) + WithHref(anchors[1..])
  }

  /** Number of anchors that carry both an `href` and the `data-url` marker. */
  function WithHrefAndMarker(anchors: seq<Anchor>): nat {
    if anchors == [] then 0
    else (if "href" in anchors[0].attrs && "data-url" in anchors[0].attrs then 1 else 0)
         + WithHrefAndMarker(anchors[1..])
  }

  /** Of N anchors with an `href`, K of which carry the marker, N - K links remain. */
  lemma {:induction false} DetailLinksCount(anchors: seq<Anchor>)
    ensures WithHrefAndMarker(anchors) <= WithHref(anchors)
    ensures |DetailLinks(anchors)| == WithHref(anchors) - WithHrefAndMarker(anchors)
    decreases |anchors|
  {
    if anchors != [] {
      DetailLinksCount(anchors[1..]);
    }
  }
}
