/** The result list of the nearby-helpers screen: heading, empty state, cards and category chips. */
module HelperList {
  import opened Wrappers
  import opened Decimal
  import opened Helpers

  /** How many category chips a card shows before the overflow chip. */
  const MaxChips: nat := 4

  const SearchingHeading := "Buscando..."

  const VolunteerRole := "volunteer"

  const ChatPathPrefix := "/direct-chat/"

  /** The chips of a card: the shown categories and, when some are hidden, the `+N` text. */
  datatype ChipRow = ChipRow(chips: seq<CategoryInfo>, overflow: Option<string>)

  function Min(a: nat, b: nat): nat {
    if a <= b then a else b
  }

  /**
   * The category chips of a helper: the first four categories with their table entries,
   * then `+N` for the N categories not shown; nothing when the helper has no category list.
   */
  function Chips(categories: Option<seq<string>>): (r: ChipRow)
    ensures categories.None? ==> r == ChipRow([], None)
    ensures categories.Some? ==>
      && |r.chips| == Min(MaxChips, |categories.value|)
      && forall i :: 0 <= i < |r.chips| ==> r.chips[i] == GetCategoryInfo(categories.value[i])
    ensures r.overflow.Some? <==> categories.Some? && |categories.value| > MaxChips
    ensures r.overflow.Some? ==> |r.overflow.value| > 1 && r.overflow.value[0] == '+'
    ensures r.overflow.Some? ==> r.overflow.value[1..] == NatToString(|categories.value| - MaxChips)
  {
    match categories
    case None => ChipRow([], None)
    case Some(cs) =>
      var shown := cs[..Min(MaxChips, |cs|)];
      var chips := seq(|shown|, i requires 0 <= i < |shown| => GetCategoryInfo(shown[i]));
      ChipRow(chips, if |cs| > MaxChips then Some("+" + NatToString(|cs| - MaxChips)) else None)
  }

  /** How many categories a chip row stands for: the chips shown plus the count after `+`. */
  function ChipCount(r: ChipRow): nat {
    match r.overflow
    case None => |r.chips|
    case Some(t) => |r.chips| + (if |t| > 0 && AllDigits(t[1..]) then ParseDecimal(t[1..]) else 0)
  }

  /** The chips and the overflow count together account for every category of the helper. */
  lemma ChipsAccountForAll(cs: seq<string>)
    ensures ChipCount(Chips(Some(cs))) == |cs|
  {
    var r := Chips(Some(cs));
    if |cs| > MaxChips {
      var digits := NatToString(|cs| - MaxChips);
      assert r.overflow == Some("+" + digits);
      assert r.overflow.value[1..] == digits;
      ParseNatToString(|cs| - MaxChips);
      assert |r.chips| == MaxChips;
    } else {
      assert r.overflow == None;
    }
  }

  /** The list heading: a searching notice, or the count with `s` on both words unless it is one. */
  function CountHeading(loading: bool, n: nat): (r: string)
    ensures loading ==> r == SearchingHeading
    ensures !loading ==> |r| > 0 && r[|r| - 1] == (if n == 1 then 'o' else 's')
    ensures !loading ==>
      && |NatToString(n)| <= |r|
      && r[|NatToString(n)|..] == (if n == 1 then " ajudante encontrado" else " ajudantes encontrados")
  {
    if loading then SearchingHeading
    else
      var suffix := if n != 1 then "s" else "";
      var words := " ajudante" + suffix + " encontrado" + suffix;
      HeadingWords();
      HeadingAfterCount(NatToString(n), words);
      NatToString(n) + words
  }

  /** Both words of the heading take the suffix. */
  lemma HeadingWords()
    ensures " ajudante" + "" + " encontrado" + "" == " ajudante encontrado"
    ensures " ajudante" + "s" + " encontrado" + "s" == " ajudantes encontrados"
    ensures " ajudante encontrado"[19] == 'o' && " ajudantes encontrados"[21] == 's'
  {
  }

  lemma HeadingAfterCount(digits: string, words: string)
    requires |words| > 0
    ensures |digits| <= |digits + words|
    ensures (digits + words)[|digits|..] == words
    ensures (digits + words)[|digits + words| - 1] == words[|words| - 1]
  {
  }

  /** The count in the heading reads back as the number of helpers. */
  lemma CountHeadingShowsCount(n: nat)
    ensures var h := CountHeading(false, n);
      var digits := NatToString(n);
      && h[..|digits|] == digits
      && ParseDecimal(h[..|digits|]) == n
      && h[|digits|] == ' '
  {
    ParseNatToString(n);
  }

  function RoleLabel(role: string): string {
    if role == VolunteerRole then "Voluntário Profissional" else "Ajudante"
  }

  /** One card of the list; a highlighted card offers the link to a direct chat with the helper. */
  datatype Card = Card(helper: Helper, roleLabel: string, chips: ChipRow, highlighted: bool, chatPath: Option<string>)

  datatype ListView = Searching | NoHelpers | Cards(cards: seq<Card>)

  /**
   * The card of a helper: its role caption and chips; highlighted when it is the selected
   * helper by id, and then, only then, offering the chat path of that helper.
   */
  function CardFor(h: Helper, selected: Option<Helper>): (c: Card)
    ensures c.helper == h && c.chips == Chips(h.helpCategories)
    ensures c.roleLabel == (if h.role == VolunteerRole then "Voluntário Profissional" else "Ajudante")
    ensures c.highlighted <==> selected.Some? && selected.value.id == h.id
    ensures c.chatPath.Some? <==> c.highlighted
    ensures c.chatPath.Some? ==> c.chatPath.value == ChatPathPrefix + h.id
  {
    var highlighted := selected.Some? && selected.value.id == h.id;
    Card(h, RoleLabel(h.role), Chips(h.helpCategories), highlighted,
      if highlighted then Some(ChatPathPrefix + h.id) else None)
  }

  /**
   * The list: a spinner while loading, the empty-state message for no helpers, otherwise one
   * card per helper in result order, highlighted when its id is the selected helper's id.
   */
  function ListOf(loading: bool, hs: seq<Helper>, selected: Option<Helper>): (v: ListView)
    ensures v.Searching? <==> loading
    ensures v.NoHelpers? <==> !loading && |hs| == 0
    ensures v.Cards? ==> |v.cards| == |hs| && forall i :: 0 <= i < |hs| ==>
      && v.cards[i].helper == hs[i]
      && (v.cards[i].highlighted <==> selected.Some? && selected.value.id == hs[i].id)
      && (v.cards[i].chatPath.Some? <==> v.cards[i].highlighted)
      && v.cards[i].chips == Chips(hs[i].helpCategories)
    ensures v.Cards? ==> forall i :: 0 <= i < |hs| ==> v.cards[i] == CardFor(hs[i], selected)
  {
    if loading then Searching
    else if |hs| == 0 then NoHelpers
    else Cards(seq(|hs|, i requires 0 <= i < |hs| => CardFor(hs[i], selected)))
  }

  /**
   * With distinct ids in the result, exactly the selected helper's card is highlighted; a
   * selection whose id is no longer in the result highlights nothing.
   */
  lemma HighlightFollowsSelection(hs: seq<Helper>, selected: Helper)
    requires |hs| > 0
    requires forall i, j :: 0 <= i < j < |hs| ==> hs[i].id != hs[j].id
    ensures var v := ListOf(false, hs, Some(selected));
      && (forall i, j :: 0 <= i < |hs| && 0 <= j < |hs| && v.cards[i].highlighted && v.cards[j].highlighted ==> i == j)
      && ((forall i :: 0 <= i < |hs| ==> hs[i].id != selected.id) ==> forall i :: 0 <= i < |hs| ==> !v.cards[i].highlighted)
  {
  }
}
