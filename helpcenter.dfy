/**
 * The help center's contact list (src/screens/HelpCenterScreen.tsx): the icon
 * each contact key gets, the two tabs, and the accordion in which pressing a
 * card opens it and closes any other, and pressing the open card closes it.
 */
module HelpCenterScreen {
  import opened Wrappers

  /** The icon sets the screen draws from. */
  datatype IconFamily = MaterialIcons | FontAwesome

  /** An icon element (all of them are drawn at size 28 in #27537B). */
  datatype Icon = Icon(family: IconFamily, name: string)

  /** The keys that have an icon. */
  const ContactKeys: set<string> := {"customer_service", "whatsapp", "website", "facebook", "twitter", "instagram"}

  /**
   * The `icon` that `CONTACTS` gives a contact with key `key`: `None` (null)
   * for any key outside the six; the social networks use the FontAwesome
   * icon of their own name.
   */
  function ContactIcon(key: string): (r: Option<Icon>)
    ensures r.None? <==> key !in ContactKeys
    ensures r.Some? && r.value.family == FontAwesome <==> key in {"whatsapp", "facebook", "twitter", "instagram"}
    ensures r.Some? && r.value.family == FontAwesome ==> r.value.name == key
    ensures key == "customer_service" ==> r == Some(Icon(MaterialIcons, "headset-mic"))
    ensures key == "website" ==> r == Some(Icon(MaterialIcons, "language"))
  {
    match key
    case "customer_service" => Some(Icon(MaterialIcons, "headset-mic"))
    case "whatsapp" => Some(Icon(FontAwesome, "whatsapp"))
    case "website" => Some(Icon(MaterialIcons, "language"))
    case "facebook" => Some(Icon(FontAwesome, "facebook"))
    case "twitter" => Some(Icon(FontAwesome, "twitter"))
    case "instagram" => Some(Icon(FontAwesome, "instagram"))
    case _ => None
  }

  /** `expanded === key ? null : key`: the card open after pressing `key`. */
  function Expanded(expanded: Option<string>, key: string): (r: Option<string>)
    ensures r == None <==> expanded == Some(key)
    ensures r != None ==> r == Some(key)
  {
    if expanded == Some(key) then None else Some(key)
  }

  /**
   * Pressing a card that is not open, then pressing it again, leaves every
   * card closed (in particular from the all-closed state).
   */
  lemma ExpandTwiceCloses(expanded: Option<string>, key: string)
    requires expanded != Some(key)
    ensures Expanded(Expanded(expanded, key), key) == None
  {
  }

  datatype Tab = FaqTab | ContactTab

  /** The screen's state. */
  class HelpCenter {
    var activeTab: Tab
    var expanded: Option<string>

    /** The contact tab is shown first, with every card closed. */
    constructor ()
      ensures activeTab == ContactTab && expanded == None
    {
      activeTab := ContactTab;
      expanded := None;
    }

    /** `handleExpand(key)`: at most one card is open, and it is the pressed one unless it was already open. */
    method HandleExpand(key: string)
      modifies this`expanded
      ensures expanded == Expanded(old(expanded), key)
      ensures old(expanded) == Some(key) ==> expanded == None
      ensures old(expanded) != Some(key) ==> expanded == Some(key)
    {
      expanded := if expanded == Some(key) then None else Some(key);
    }

    /** One of the two tab buttons. */
    method SetActiveTab(tab: Tab)
      modifies this`activeTab
      ensures activeTab == tab
    {
      activeTab := tab;
    }
  }
}
