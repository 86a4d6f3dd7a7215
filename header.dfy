/**
 * The site header: the navigation links (with "Validate Tickets" for
 * validators), the active-link rule, the wallet chip with its abbreviated
 * address and initials, and the account dropdown with the wallet's balance.
 */
module Header {
  import opened Wrappers
  import opened Strings

  datatype NavLink = NavLink(caption: string, href: string, badge: bool)

  const BASE_NAV_LINKS: seq<NavLink> := [
    NavLink("Explore", "/", false), NavLink("My Tickets", "/my-tickets", false), NavLink("Marketplace", "#", false)]

  const VALIDATE_LINK := NavLink("Validate Tickets", "/validate", true)

  /** `shortenAddress(address)`: 4 leading characters, "...", 4 trailing ones. */
  function ShortenAddress(address: string): (r: string)
    ensures |address| >= 4 ==> r == address[..4] + "..." + address[|address| - 4..] && |r| == 11
  {
    if |address| >= 4 then AbbreviateLong(address, 4, 4); Abbreviate(address, 4, 4)
    else Abbreviate(address, 4, 4)
  }

  /** The wallet's base58 address, or "" without one, as the header reads it. */
  function AddressOf(wallet: Option<string>): string { wallet.GetOr("") }

  /** The avatar's text: the first two characters of the address in upper case, "??" without an address. */
  function Initials(address: string): (r: string)
    ensures address == "" ==> r == "??"
    ensures address != "" ==> |r| == Min(2, |address|) && forall i :: 0 <= i < |r| ==> r[i] == UpperChar(address[i])
  {
    if address == "" then "??" else ToUpper(Head(address, 2))
  }

  /** The links of the centre navigation. */
  function NavLinks(isValidator: bool): seq<NavLink> {
    BASE_NAV_LINKS + (if isValidator then [VALIDATE_LINK] else [])
  }

  predicate IsActive(pathname: string, link: NavLink) { pathname == link.href }

  /**
   * The three base links always come first, in order; "Validate Tickets" is
   * added last, and it is the only link carrying the badge, exactly for
   * validators.
   */
  lemma NavLinksCases(isValidator: bool)
    ensures var links := NavLinks(isValidator);
      && links[..3] == BASE_NAV_LINKS
      && |links| == (if isValidator then 4 else 3)
      && (isValidator ==> links[3] == VALIDATE_LINK)
      && ((exists i :: 0 <= i < |links| && links[i].href == "/validate") <==> isValidator)
      && (forall i :: 0 <= i < |links| ==> (links[i].badge <==> links[i] == VALIDATE_LINK))
  {
    var links := NavLinks(isValidator);
    if isValidator {
      assert links[3].href == "/validate";
    }
  }

  /** The hrefs differ, so for any path at most one link is highlighted, and on the validation page none is for a non-validator. */
  lemma AtMostOneActive(isValidator: bool, pathname: string, i: int, j: int)
    requires 0 <= i < |NavLinks(isValidator)| && 0 <= j < |NavLinks(isValidator)|
    ensures IsActive(pathname, NavLinks(isValidator)[i]) && IsActive(pathname, NavLinks(isValidator)[j]) ==> i == j
    ensures !isValidator && pathname == "/validate" ==> !IsActive(pathname, NavLinks(isValidator)[i])
  {
  }

  class HeaderView {
    var dropdownOpen: bool
    /** The last balance read, in lamports (`null` until read, and after a failed read). */
    var balance: Option<int>

    constructor ()
      ensures !dropdownOpen && balance.None?
    {
      dropdownOpen, balance := false, None;
    }

    /** The wallet chip: opens or closes the dropdown. */
    method ToggleDropdown()
      modifies this
      ensures dropdownOpen == !old(dropdownOpen) && balance == old(balance)
    {
      dropdownOpen := !dropdownOpen;
    }

    /** One of the dropdown's links, or "Disconnect Wallet": the dropdown closes. */
    method ChooseMenuItem()
      modifies this
      ensures !dropdownOpen && balance == old(balance)
    {
      dropdownOpen := false;
    }

    /** A mouse press anywhere on the page; one outside the rendered chip-and-dropdown area closes the dropdown. */
    method MouseDown(rendered: bool, inside: bool)
      modifies this
      ensures dropdownOpen == (old(dropdownOpen) && !(rendered && !inside))
      ensures balance == old(balance)
    {
      if rendered && !inside {
        dropdownOpen := false;
      }
    }

    /**
     * `fetchBalance()` settled with the wallet's lamports or an error:
     * nothing happens without a wallet; a failure forgets the balance.
     */
    method FetchBalance(walletConnected: bool, read: Outcome<int>)
      modifies this
      ensures !walletConnected ==> balance == old(balance)
      ensures walletConnected && read.Ok? ==> balance == Some(read.value)
      ensures walletConnected && read.Err? ==> balance.None?
      ensures dropdownOpen == old(dropdownOpen)
    {
      if !walletConnected {
        return;
      }
      balance := if read.Ok? then Some(read.value) else None;
    }
  }
}
