/** The configuration sources an administrator can list. */
module Sources {
  import opened Wrappers

  datatype Header = Header(name: string, kind: string, value: string, secretKey: string)

  datatype PostData = PostData(name: string, value: string, values: Option<seq<string>>)

  /** One source; which fields matter depends on `kind`. */
  datatype Source = Source(
    kind: string,
    name: string,
    dataKey: string,
    value: string,
    url: string,
    headers: seq<Header>,
    order: int,
    discoveryEndpoint: string,
    secret: string,
    postData: seq<PostData>)

  const LITERAL := "literal"
  const CONFIGMAP := "configmap"
  const WEB := "web"
  const OIDC := "oidc_registration"
}
