/** Remove flag argument: functions that switch on a boolean parameter, and
    one function per value of the flag. */
module RemoveFlagArgument {
  import opened Js

  // ---------------------------------------------------------------------------
  // Example 1: element visibility

  /** An element's style object; `display` is None until it is assigned. */
  class Style {
    var display: Option<string>

    constructor ()
      ensures display == None
    {
      display := None;
    }
  }

  class Element {
    const style: Style

    constructor ()
      ensures fresh(style) && style.display == None
    {
      style := new Style();
    }
  }

  method SetVisibility(element: Element, isVisible: bool)
    modifies element.style`display
    ensures element.style.display == Some(if isVisible then "block" else "none")
  {
    if isVisible {
      element.style.display := Some("block");
    } else {
      element.style.display := Some("none");
    }
  }

  /** `show(e)` leaves `e` as `setVisibility(e, true)` does. */
  method Show(element: Element)
    modifies element.style`display
    ensures element.style.display == Some("block")
  {
    element.style.display := Some("block");
  }

  /** `hide(e)` leaves `e` as `setVisibility(e, false)` does. */
  method Hide(element: Element)
    modifies element.style`display
    ensures element.style.display == Some("none")
  {
    element.style.display := Some("none");
  }

  /** Setting the sidebar's visibility leaves the navbar's as it was. */
  method Example1Before() returns (navbar: Option<string>, sidebar: Option<string>)
    ensures navbar == Some("block") && sidebar == Some("none")
  {
    var navbarElement := new Element();
    var sidebarElement := new Element();
    SetVisibility(navbarElement, true);
    SetVisibility(sidebarElement, false);
    navbar, sidebar := navbarElement.style.display, sidebarElement.style.display;
  }

  method Example1After() returns (navbar: Option<string>, sidebar: Option<string>)
    ensures navbar == Some("block") && sidebar == Some("none")
  {
    var navbarElement := new Element();
    var sidebarElement := new Element();
    Show(navbarElement);
    Hide(sidebarElement);
    navbar, sidebar := navbarElement.style.display, sidebarElement.style.display;
  }

  // ---------------------------------------------------------------------------
  // Example 2: booking delivery

  /** A calendar day as a day number; the delivery functions never read it. */
  type Day = int

  datatype Delivery = Delivery(kind: string, days: int)

  function RushDelivery(date: Day): Delivery {
    Delivery("rush", 1)
  }

  function RegularDelivery(date: Day): Delivery {
    Delivery("regular", 5)
  }

  function DeliveryDate(date: Day, isRush: bool): (r: Delivery)
    ensures isRush ==> r == RushDelivery(date)
    ensures !isRush ==> r == RegularDelivery(date)
    ensures r.kind == "rush" <==> isRush
  {
    if isRush then Delivery("rush", 1) else Delivery("regular", 5)
  }

  /** The result does not depend on the date. */
  lemma DeliveryIgnoresDate(d1: Day, d2: Day, isRush: bool)
    ensures DeliveryDate(d1, isRush) == DeliveryDate(d2, isRush)
  {
  }

  /** 2024-01-01, counted from that day. */
  const Example2Date: Day := 0

  function Example2Before(): (r: Delivery)
    ensures r == Example2After() == Delivery("rush", 1)
  {
    var isRush := true;
    DeliveryDate(Example2Date, isRush)
  }

  function Example2After(): Delivery {
    RushDelivery(Example2Date)
  }

  // ---------------------------------------------------------------------------
  // Example 3: rendering a user profile

  datatype User = User(name: string, isPremium: bool)

  const Example3User := User("Alice", true)

  function RenderPremiumProfile(user: User): string {
    "<div>" + user.name + " <span class=\"badge\">Premium</span></div>"
  }

  function RenderStandardProfile(user: User): string {
    "<div>" + user.name + "</div>"
  }

  function RenderProfile(user: User, isPremium: bool): (r: string)
    ensures isPremium ==> r == RenderPremiumProfile(user)
    ensures !isPremium ==> r == RenderStandardProfile(user)
    ensures r[..5 + |user.name|] == "<div>" + user.name
  {
    if isPremium then
      "<div>" + user.name + " <span class=\"badge\">Premium</span></div>"
    else
      "<div>" + user.name + "</div>"
  }

  /** Both versions render the fixture user, who is premium. */
  function Example3Before(): (r: string)
    ensures r == Example3After()
  {
    RenderProfile(Example3User, Example3User.isPremium)
  }

  function Example3After(): string {
    RenderPremiumProfile(Example3User)
  }
}
