/** The header: the connected address in short form, the active-route
    highlight, and the mobile menu's open flag. */
module Header {
  import opened Wrappers
  import opened JsText
  import NftItem
  import NftCard

  /** `formatAddress`: nothing for a missing address, else its short form. */
  function FormatAddress(address: Option<string>): (r: string)
    ensures r == "" <==> !TruthyStr(address)
    ensures TruthyStr(address) ==>
      var a := address.value;
      && |r| == Min(6, |a|) + 3 + Min(4, |a|)
      && |r| <= 13 && (|r| == 13 <==> |a| >= 6)
      && r[..Min(6, |a|)] == a[..Min(6, |a|)]
      && r[Min(6, |a|)..Min(6, |a|) + 3] == "..."
      && r[Min(6, |a|) + 3..] == a[|a| - Min(4, |a|)..]
  {
    if !TruthyStr(address) then "" else Abbreviate(address.value)
  }

  /** The header and the NFT card shorten a non-empty address alike. */
  lemma HeaderMatchesCard(n: NftItem.Nft)
    requires |n.creator| > 0
    ensures FormatAddress(Some(n.creator)) == NftCard.CreatorLabel(n)
  {
  }

  const NavPaths: seq<string> := ["/", "/marketplace", "/portfolio"]

  /** `isActive(path)`: exact equality with the current pathname. */
  predicate IsActive(path: string, pathname: string) { pathname == path }

  /** At most one navigation link is highlighted, and one is exactly when
      the pathname is one of the three routes. */
  lemma OneActiveLink(pathname: string)
    ensures forall i, j :: (0 <= i < |NavPaths| && 0 <= j < |NavPaths|
                             && IsActive(NavPaths[i], pathname) && IsActive(NavPaths[j], pathname)) ==> i == j
    ensures (exists i :: 0 <= i < |NavPaths| && IsActive(NavPaths[i], pathname)) <==> pathname in NavPaths
  {
    assert NavPaths[0] != NavPaths[1] && NavPaths[0] != NavPaths[2];
    assert NavPaths[1][1] != NavPaths[2][1];
  }

  /** Pressing the menu button, or following a link in the open menu. */
  datatype MenuEvent = ToggleMenu | FollowLink

  function MenuStep(open: bool, e: MenuEvent): bool {
    match e
    case ToggleMenu => !open
    case FollowLink => false
  }

  function MenuRun(open: bool, es: seq<MenuEvent>): bool
    decreases |es|
  {
    if |es| == 0 then open else MenuRun(MenuStep(open, es[0]), es[1..])
  }

  /** `n` presses of the menu button flip the flag `n` times. */
  lemma {:induction false} ToggleParity(open: bool, n: nat)
    ensures MenuRun(open, seq(n, _ => ToggleMenu)) == (if n % 2 == 0 then open else !open)
    decreases n
  {
    if n > 0 {
      var es := seq(n, _ => ToggleMenu);
      assert es[1..] == seq(n - 1, _ => ToggleMenu);
      ToggleParity(!open, n - 1);
    }
  }

  /** After following a link the menu is closed until it is toggled again. */
  lemma {:induction false} LinkCloses(open: bool, es: seq<MenuEvent>)
    requires |es| > 0 && es[|es| - 1] == FollowLink
    ensures !MenuRun(open, es)
    decreases |es|
  {
    if |es| > 1 {
      LinkCloses(MenuStep(open, es[0]), es[1..]);
    }
  }
}
