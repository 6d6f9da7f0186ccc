/** The dashboard sidebar: the navigation links, composed from the stored
    user's role, and the open/closed flag of the mobile drawer. */
module Sidebar {
  import opened Js
  import opened Records

  /** One entry of `navLinks`; the icon is presentation only. */
  datatype NavLink = NavLink(path: string, caption: string, end: bool)

  const MainHome := NavLink("/", "Main_Home", false)
  const ProfileSpecs := NavLink("/dashboard/profile", "Profile_Specs", false)
  const RegistryManage := NavLink("/dashboard/all-users", "Registry_Manage", false)
  const GlobalMissions := NavLink("/dashboard/all-donation-requests", "Global_Missions", false)
  const ContentControl := NavLink("/dashboard/content-management", "Content_Control", false)
  const MyOperations := NavLink("/dashboard/my-donation-requests", "My_Operations", false)
  const NewRequest := NavLink("/dashboard/create-donation-request", "New_Request", false)

  /** `dbUser?.role === "admin"`; the role is absent until the stored user arrives. */
  predicate IsAdmin(role: Option<string>) {
    role == Some(Admin)
  }

  /** `dbUser?.role === "admin" || dbUser?.role === "volunteer"` */
  predicate IsStaff(role: Option<string>) {
    role == Some(Admin) || role == Some(Volunteer)
  }

  /** The overview entry, which is the only link whose target depends on the role. */
  function Overview(role: Option<string>): (l: NavLink)
    ensures l.end
    ensures IsAdmin(role) <==> l.path == "/dashboard/admin-home"
    ensures IsAdmin(role) <==> l.caption == "Admin_Overview"
    ensures !IsAdmin(role) <==> l == NavLink("/dashboard", "User_Dashboard", true)
  {
    if IsAdmin(role) then NavLink("/dashboard/admin-home", "Admin_Overview", true)
    else NavLink("/dashboard", "User_Dashboard", true)
  }

  /** `navLinks`: fixed entries around the role-dependent ones, in display order. */
  function NavLinks(role: Option<string>): (r: seq<NavLink>)
    ensures |r| == 5 + (if IsAdmin(role) then 1 else 0) + (if IsStaff(role) then 2 else 0)
    ensures r[0] == MainHome && r[1] == Overview(role) && r[2] == ProfileSpecs
    ensures r[|r| - 2] == MyOperations && r[|r| - 1] == NewRequest
    ensures RegistryManage in r <==> IsAdmin(role)
    ensures GlobalMissions in r <==> IsStaff(role)
    ensures ContentControl in r <==> IsStaff(role)
  {
    [MainHome, Overview(role), ProfileSpecs]
    + (if IsAdmin(role) then [RegistryManage] else [])
    + (if IsStaff(role) then [GlobalMissions, ContentControl] else [])
    + [MyOperations, NewRequest]
  }

  /** No two links share a path, so the path is a sound list key. */
  lemma PathsDistinct(role: Option<string>)
    ensures var r := NavLinks(role);
      forall i, j :: 0 <= i < j < |r| ==> r[i].path != r[j].path
  {
  }

  /** Apart from the overview entry, an admin sees every link a user of any
      other role sees. */
  lemma AdminSeesEverything(role: Option<string>)
    ensures forall l :: l in NavLinks(role) && l != Overview(role) ==> l in NavLinks(Some(Admin))
  {
  }

  /** The open flag of the drawer (`isOpen`). */
  class SidebarState {
    var isOpen: bool

    constructor ()
      ensures !isOpen
    {
      isOpen := false;
    }

    /** `toggleSidebar` */
    method Toggle()
      modifies this
      ensures isOpen == !old(isOpen)
    {
      isOpen := !isOpen;
    }

    /** The `onClick` of every link. */
    method LinkClicked(l: NavLink)
      modifies this
      ensures !isOpen
    {
      isOpen := false;
    }
  }
}
