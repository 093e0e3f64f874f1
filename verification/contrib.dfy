/** The action-button admin mixin (kong_admin/contrib.py): the URL routes it
    adds for its buttons, the extra "Item Actions" column and the HTML of a
    per-row button. Views are opaque and stand as identifiers; a callable
    button entry is a function of the row object. */
module Contrib {
  import opened Tables

  /** The row object a per-row button is rendered for: its primary key and,
      standing for the rest of its fields, a title callables may read. */
  datatype Obj = Obj(pk: nat, title: string)

  /** A button's `url` or `caption`: plain text, or a callable of the row
      object. `repr` is what `'%s' % entry` renders for the callable. */
  datatype Entry = Text(s: string) | Callable(f: Obj -> string, repr: string)

  type ViewId = nat

  datatype Button = Button(url: Entry, caption: Entry, view: ViewId)

  /** The admin's optional `action_buttons` and `list_display_buttons`
      attributes (absent attributes read as empty lists). */
  datatype Admin = Admin(actionButtons: Option<seq<Button>>, listDisplayButtons: Option<seq<Button>>)

  datatype Route = Route(pattern: string, view: ViewId)

  /** A column of the change list: a model field, or the buttons column. */
  datatype Column = Field(name: string) | ItemActionsColumn

  /** `getattr(self, 'action_buttons', [])`. */
  function ActionButtons(a: Admin): (r: seq<Button>)
    ensures a.actionButtons.None? ==> r == []
    ensures a.actionButtons.Some? ==> r == a.actionButtons.value
  {
    match a.actionButtons
    case None => []
    case Some(bs) => bs
  }

  /** `getattr(self, 'list_display_buttons', [])`. */
  function ListDisplayButtons(a: Admin): (r: seq<Button>)
    ensures a.listDisplayButtons.None? ==> r == []
    ensures a.listDisplayButtons.Some? ==> r == a.listDisplayButtons.value
  {
    match a.listDisplayButtons
    case None => []
    case Some(bs) => bs
  }

  predicate EndsWithSlash(u: string)
  {
    |u| > 0 && u[|u| - 1] == '/'
  }

  /** `_safe_list_display_button_url`: the url with a trailing slash added
      when it has none. */
  function SafeUrl(u: string): (r: string)
    ensures EndsWithSlash(r)
    ensures u <= r && |r| <= |u| + 1
    ensures r == u <==> EndsWithSlash(u)
  {
    if EndsWithSlash(u) then u else u + "/"
  }

  /** Of the slash-terminated strings that extend `u`, the safe url is a
      shortest: the slash is added only where it is missing. */
  lemma {:induction false} SafeUrlShortest(u: string, v: string)
    requires u <= v && EndsWithSlash(v)
    ensures |SafeUrl(u)| <= |v|
  {
    if |v| == |u| {
      assert v == u;
    }
  }

  predicate IsDigit(c: char)
  {
    '0' <= c <= '9'
  }

  function DigitChar(d: nat): (c: char)
    requires d < 10
    ensures IsDigit(c)
    ensures c as int - '0' as int == d
  {
    ['0', '1', '2', '3', '4', '5', '6', '7', '8', '9'][d]
  }

  /** `'%d' % n` for a non-negative integer: its decimal digits, most
      significant first, without leading zeros. */
  function Decimal(n: nat): (r: string)
    ensures |r| > 0
    ensures forall i :: 0 <= i < |r| ==> IsDigit(r[i])
    ensures r[0] == '0' ==> n == 0 && |r| == 1
    decreases n
  {
    if n < 10 then [DigitChar(n)] else Decimal(n / 10) + [DigitChar(n % 10)]
  }

  /** The value a string of decimal digits denotes (what the `\d+` capture
      reads back as an integer primary key). */
  function DigitsValue(s: string): (v: nat)
    requires forall i :: 0 <= i < |s| ==> IsDigit(s[i])
    decreases |s|
  {
    if |s| == 0 then 0
    else DigitsValue(s[..|s| - 1]) * 10 + DigitValue(s[|s| - 1])
  }

  function DigitValue(c: char): (d: nat)
    requires IsDigit(c)
    ensures d < 10 && DigitChar(d) == c
  {
    c as int - '0' as int
  }

  /** Reading the rendered primary key back gives the primary key. */
  lemma {:induction false} DecimalRoundTrip(n: nat)
    ensures DigitsValue(Decimal(n)) == n
    decreases n
  {
    if n >= 10 {
      DecimalRoundTrip(n / 10);
      var d := Decimal(n);
      assert d[..|d| - 1] == Decimal(n / 10);
    }
  }

  /** Two primary keys render the same only when they are equal. */
  lemma DecimalInjective(m: nat, n: nat)
    requires Decimal(m) == Decimal(n)
    ensures m == n
  {
    DecimalRoundTrip(m);
    DecimalRoundTrip(n);
  }

  /** The capture group the per-row routes add after the button's url. */
  const PkPattern: string := "(?P<pk>\\d+)/"

  /** `'^%s$' % button['url']`: the text `%s` renders for the entry. */
  function UrlText(e: Entry): (r: string)
    ensures e.Text? ==> r == e.s
    ensures e.Callable? ==> r == e.repr
  {
    match e
    case Text(s) => s
    case Callable(_, repr) => repr
  }

  function ActionRoute(b: Button): (r: Route)
    ensures r.view == b.view
    ensures r.pattern == "^" + UrlText(b.url) + "$"
  {
    Route("^" + UrlText(b.url) + "$", b.view)
  }

  /** The route of a row button. Only a plain-text url has one:
      `_safe_list_display_button_url` calls `endswith` on the url, which a
      callable does not have. */
  function RowRoute(b: Button): (r: Route)
    requires b.url.Text?
    ensures r.view == b.view
    ensures r.pattern == "^" + SafeUrl(b.url.s) + PkPattern + "$"
  {
    Route("^" + SafeUrl(b.url.s) + PkPattern + "$", b.view)
  }

  /** Some row button has a callable url. */
  predicate CallableRowUrl(a: Admin)
  {
    exists i :: 0 <= i < |ListDisplayButtons(a)| && ListDisplayButtons(a)[i].url.Callable?
  }

  /** `get_urls`: one route per action button, then one per row button, in
      button order, all ahead of the inherited routes. A row button with a
      callable url makes it raise `AttributeError` (`None` here), although
      the renderer accepts such a url; an action button's callable url is
      only formatted into its pattern. */
  function GetUrls(a: Admin, inherited: seq<Route>): (r: Option<seq<Route>>)
    ensures r.None? <==> CallableRowUrl(a)
    ensures r.Some? ==> |r.value| == |ActionButtons(a)| + |ListDisplayButtons(a)| + |inherited|
    ensures r.Some? ==> forall i :: 0 <= i < |ActionButtons(a)| ==> r.value[i] == ActionRoute(ActionButtons(a)[i])
    ensures r.Some? ==> forall i :: 0 <= i < |ListDisplayButtons(a)| ==>
              ListDisplayButtons(a)[i].url.Text? && r.value[|ActionButtons(a)| + i] == RowRoute(ListDisplayButtons(a)[i])
    ensures r.Some? ==> r.value[|ActionButtons(a)| + |ListDisplayButtons(a)|..] == inherited
  {
    var actions := ActionButtons(a);
    var rows := ListDisplayButtons(a);
    if forall i :: 0 <= i < |rows| ==> rows[i].url.Text? then
      Some(seq(|actions|, i requires 0 <= i < |actions| => ActionRoute(actions[i]))
           + seq(|rows|, i requires 0 <= i < |rows| => RowRoute(rows[i]))
           + inherited)
    else
      None
  }

  /** `get_list_display`: the admin's columns, with the buttons column
      appended exactly when there are row buttons. */
  function GetListDisplay(a: Admin, listDisplay: seq<Column>): (r: seq<Column>)
    ensures |r| == |listDisplay| + (if ListDisplayButtons(a) == [] then 0 else 1)
    ensures r[..|listDisplay|] == listDisplay
    ensures ListDisplayButtons(a) != [] ==> r[|r| - 1] == ItemActionsColumn
  {
    if ListDisplayButtons(a) == [] then listDisplay else listDisplay + [ItemActionsColumn]
  }

  /** An entry as the renderer reads it: a callable is applied to the row. */
  function Resolve(e: Entry, obj: Obj): (r: string)
    ensures e.Text? ==> r == e.s
    ensures e.Callable? ==> r == e.f(obj)
  {
    match e
    case Text(s) => s
    case Callable(f, _) => f(obj)
  }

  /** `'%s%d/' % (safe url, obj.pk)`: the link a row button points to. */
  function ButtonHref(b: Button, obj: Obj): string
  {
    SafeUrl(Resolve(b.url, obj)) + Decimal(obj.pk) + "/"
  }

  const AnchorOpen: string := "<a href=\""
  const InputOpen: string := "\"><input type=\"button\" value=\""
  const InputClose: string := "\" /></a>"

  /** `_render_list_display_button`: an anchor around a button input. The
      button the admin holds is not changed (the source resolves a copy). */
  function RenderButton(b: Button, obj: Obj): (r: string)
    ensures |r| == |AnchorOpen| + |ButtonHref(b, obj)| + |InputOpen| + |Resolve(b.caption, obj)| + |InputClose|
  {
    AnchorOpen + ButtonHref(b, obj) + InputOpen + Resolve(b.caption, obj) + InputClose
  }

  /** The rendered button, piece by piece: the anchor opens on the href,
      which is the resolved url made safe, the row's primary key and a slash;
      then the input carries the resolved caption. */
  lemma RenderButtonLayout(b: Button, obj: Obj)
    ensures var r := RenderButton(b, obj);
            var u := SafeUrl(Resolve(b.url, obj));
            var k := Decimal(obj.pk);
            var h := |AnchorOpen| + |u| + |k| + 1;
            && |r| == h + |InputOpen| + |Resolve(b.caption, obj)| + |InputClose|
            && r[..|AnchorOpen|] == AnchorOpen
            && r[|AnchorOpen|..|AnchorOpen| + |u|] == u
            && r[|AnchorOpen| + |u|..h - 1] == k
            && r[h - 1] == '/'
            && r[h..h + |InputOpen|] == InputOpen
            && r[h + |InputOpen|..|r| - |InputClose|] == Resolve(b.caption, obj)
            && r[|r| - |InputClose|..] == InputClose
  {
    var r := RenderButton(b, obj);
    var u := SafeUrl(Resolve(b.url, obj));
    var k := Decimal(obj.pk);
    var c := Resolve(b.caption, obj);
    assert r == AnchorOpen + u + k + "/" + InputOpen + c + InputClose;
  }

  /** `_item_actions`: the row's buttons rendered one after another. */
  function ItemActions(buttons: seq<Button>, obj: Obj): (r: string)
    ensures r == [] <==> buttons == []
  {
    if buttons == [] then [] else RenderButton(buttons[0], obj) + ItemActions(buttons[1..], obj)
  }

  /** The change list gains a column exactly when that column renders
      something for a row. */
  lemma ListDisplayShowsActions(a: Admin, listDisplay: seq<Column>, obj: Obj)
    ensures |GetListDisplay(a, listDisplay)| > |listDisplay| <==> ItemActions(ListDisplayButtons(a), obj) != []
  {
  }

  /** The buttons of two lists render as the two renderings in order. */
  lemma {:induction false} ItemActionsAppend(a: seq<Button>, b: seq<Button>, obj: Obj)
    ensures ItemActions(a + b, obj) == ItemActions(a, obj) + ItemActions(b, obj)
    decreases |a|
  {
    if a == [] {
      assert a + b == b;
    } else {
      assert (a + b)[0] == a[0];
      assert (a + b)[1..] == a[1..] + b;
      ItemActionsAppend(a[1..], b, obj);
      var head := RenderButton(a[0], obj);
      assert ItemActions(a + b, obj) == head + ItemActions(a[1..] + b, obj);
    }
  }

  /** The characters with a meaning in a regular expression. */
  const RegexMeta: string := ".^$*+?{}[]\\|()"

  /** `s` holds no regular-expression metacharacter, so as a pattern it
      matches exactly itself. */
  predicate Literal(s: string)
  {
    forall i :: 0 <= i < |s| ==> s[i] !in RegexMeta
  }

  /** The primary key the route `^base(?P<pk>\d+)/$` captures from `path`,
      or `None` when the route does not match it, for a `base` that is
      `Literal` (it is compared character by character). */
  function RowRoutePk(base: string, path: string): (r: Option<nat>)
    ensures r.Some? ==> base <= path
  {
    if |path| < |base| + 2 || path[..|base|] != base || path[|path| - 1] != '/' then None
    else
      var digits := path[|base|..|path| - 1];
      if forall i :: 0 <= i < |digits| ==> IsDigit(digits[i]) then Some(DigitsValue(digits)) else None
  }

  /** The link a row button renders for an object is routed by that button's
      per-row route whenever its url is literal text, and the captured
      primary key is the object's own: clicking the button reaches its view
      for the right row. */
  lemma RowButtonRoundTrip(b: Button, obj: Obj)
    requires b.url.Text? && Literal(b.url.s)
    ensures RowRoute(b).pattern == "^" + SafeUrl(b.url.s) + PkPattern + "$"
    ensures RowRoutePk(SafeUrl(b.url.s), ButtonHref(b, obj)) == Some(obj.pk)
  {
    var base := SafeUrl(b.url.s);
    var path := ButtonHref(b, obj);
    var d := Decimal(obj.pk);
    assert path == base + d + "/";
    assert path[..|base|] == base;
    assert path[|base|..|path| - 1] == d;
    DecimalRoundTrip(obj.pk);
  }
}
