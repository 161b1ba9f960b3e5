/**
 * Page navigation. The client pages call the router to move to another route;
 * here a handler returns the route it would push, or `Stay` when it pushes none.
 */
module Navigation {
  datatype Destination =
    | Stay
    | HomeRoute        // "/"
    | LoginRoute       // "/auth/login"
    | SignupRoute      // "/auth/signup"
    | VerifyRoute      // "/auth/verify"
    | DashboardRoute   // "/dashboard"
}
