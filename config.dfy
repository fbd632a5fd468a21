/**
 * Where the applications live (`UrlUtils` in `packages/ui/src/utils/urls.ts`
 * and the same `process.env.X || default` pattern used by the services and
 * hooks).  An environment variable that is unset or empty is `""`.
 */
module Urls {

  /** The build-time environment. */
  datatype Env = Env(homeUrl: string, investmentsUrl: string, cardsUrl: string, nodeEnv: string)

  const DefaultHomeUrl := "http://localhost:3000"
  const DefaultInvestmentsUrl := "http://localhost:3001"
  const DefaultCardsUrl := "http://localhost:3001"

  /** `v || fallback` on a string. */
  function OrElse(v: string, fallback: string): (r: string)
    ensures v != "" ==> r == v
    ensures v == "" ==> r == fallback
  {
    if v != "" then v else fallback
  }

  /** `getHomeUrl`: the configured home URL, else port 3000 on localhost. */
  function HomeUrl(env: Env): (r: string)
    ensures r != ""
    ensures env.homeUrl != "" ==> r == env.homeUrl
    ensures env.homeUrl == "" ==> r == "http://localhost:3000"
  {
    OrElse(env.homeUrl, DefaultHomeUrl)
  }

  /** The investments URL as the services and hooks compute it. */
  function InvestmentsUrl(env: Env): (r: string)
    ensures r != ""
    ensures env.investmentsUrl != "" ==> r == env.investmentsUrl
    ensures env.investmentsUrl == "" ==> r == "http://localhost:3001"
  {
    OrElse(env.investmentsUrl, DefaultInvestmentsUrl)
  }

  /** `getCardsUrl`: the configured cards URL, else port 3001 on localhost. */
  function CardsUrl(env: Env): (r: string)
    ensures r != ""
    ensures env.cardsUrl != "" ==> r == env.cardsUrl
    ensures env.cardsUrl == "" ==> r == "http://localhost:3001"
  {
    OrElse(env.cardsUrl, DefaultCardsUrl)
  }

  /** `getAppUrl(app)`: `"cards"` selects the cards URL, every other name the home URL. */
  function AppUrl(env: Env, app: string): (r: string)
    ensures app == "cards" ==> r == CardsUrl(env)
    ensures app != "cards" ==> r == HomeUrl(env)
  {
    if app == "home" then HomeUrl(env)
    else if app == "cards" then CardsUrl(env)
    else HomeUrl(env)
  }

  /** `isProduction`. */
  predicate IsProduction(env: Env) {
    env.nodeEnv == "production"
  }

  /** `getCurrentAppUrl`: the page's origin, `""` with no window. */
  function CurrentAppUrl(hasWindow: bool, origin: string): (r: string)
    ensures !hasWindow ==> r == ""
    ensures hasWindow ==> r == origin
  {
    if !hasWindow then "" else origin
  }
}
