/** `cpl_render_container`: the root `<div>` every shortcode renders for the
    client-side app, carrying its attributes as `data-*` attributes, a
    `<noscript>` notice and an optional fallback block. The escaping and
    translation functions WordPress provides (`esc_attr`, `wp_kses_post`,
    `esc_html__`) are parameters. */
module Render {
  import opened Common

  /** One ` data-key="value"` attribute, key and value escaped. */
  function DataAttr(attr: (string, string), escAttr: string -> string): string
  {
    " data-" + escAttr(attr.0) + "=\"" + escAttr(attr.1) + "\""
  }

  /** The attributes of the root element, in the order of the attribute array. */
  function AttrsString(attrs: seq<(string, string)>, escAttr: string -> string): string
    decreases |attrs|
  {
    if attrs == [] then ""
    else AttrsString(attrs[..|attrs| - 1], escAttr) + DataAttr(attrs[|attrs| - 1], escAttr)
  }

  /** Rendering the attributes of two arrays one after the other is rendering
      the joined array. */
  lemma {:induction false} AttrsStringAppend(a: seq<(string, string)>, b: seq<(string, string)>, escAttr: string -> string)
    ensures AttrsString(a + b, escAttr) == AttrsString(a, escAttr) + AttrsString(b, escAttr)
    decreases |b|
  {
    if b == [] {
      assert a + b == a;
    } else {
      var n := |b| - 1;
      var ab := a + b;
      assert ab[..|ab| - 1] == a + b[..n];
      assert ab[|ab| - 1] == b[n];
      AttrsStringAppend(a, b[..n], escAttr);
      var last := DataAttr(b[n], escAttr);
      calc {
        AttrsString(ab, escAttr);
        AttrsString(a + b[..n], escAttr) + last;
        (AttrsString(a, escAttr) + AttrsString(b[..n], escAttr)) + last;
        AttrsString(a, escAttr) + (AttrsString(b[..n], escAttr) + last);
      }
    }
  }

  /** The root element before its fallback block. */
  function OpenTag(id: string, attrs: seq<(string, string)>, escAttr: string -> string, noscript: string): string
  {
    "<div id=\"" + escAttr(id) + "\" class=\"ssm ssm-root\"" + AttrsString(attrs, escAttr) + ">"
      + "<noscript><div class=\"ssm-noscript\">" + noscript + "</div></noscript>"
  }

  /** The whole container; the fallback block is present only for a truthy fallback. */
  function Container(id: string, attrs: seq<(string, string)>, fallback: string,
                     escAttr: string -> string, kses: string -> string, noscript: string): string
  {
    OpenTag(id, attrs, escAttr, noscript)
      + (if Truthy(fallback) then "<div class=\"ssm-fallback\">" + kses(fallback) + "</div>" else "")
      + "</div>"
  }

  /** The helper as the source runs it: the attribute string grows one
      attribute per loop step, then the markup is assembled. */
  method RenderContainer(id: string, attrs: seq<(string, string)>, fallback: string,
                         escAttr: string -> string, kses: string -> string, noscript: string) returns (html: string)
    ensures html == Container(id, attrs, fallback, escAttr, kses, noscript)
    ensures html[..|OpenTag(id, attrs, escAttr, noscript)|] == OpenTag(id, attrs, escAttr, noscript)
    ensures !Truthy(fallback) ==> html == OpenTag(id, attrs, escAttr, noscript) + "</div>"
  {
    var attrsStr := "";
    for i := 0 to |attrs|
      invariant attrsStr == AttrsString(attrs[..i], escAttr)
    {
      attrsStr := attrsStr + " data-" + escAttr(attrs[i].0) + "=\"" + escAttr(attrs[i].1) + "\"";
      assert attrs[..i + 1][..i] == attrs[..i];
    }
    assert attrs[..|attrs|] == attrs;
    html := "<div id=\"" + escAttr(id) + "\" class=\"ssm ssm-root\"" + attrsStr + ">";
    html := html + "<noscript><div class=\"ssm-noscript\">" + noscript + "</div></noscript>";
    if Truthy(fallback) {
      html := html + "<div class=\"ssm-fallback\">" + kses(fallback) + "</div>";
    }
    html := html + "</div>";
  }
}
