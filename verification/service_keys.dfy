/** The decoded shape of the platform's service-key listing: the subset of
    the JSON document the plugin reads, one datatype per nested record. */
module ServiceKeys {

  /** `credentials.auth` */
  datatype Auth = Auth(token: string)

  /** `credentials.backends`: the instance-private path prefix. */
  datatype Backends = Backends(generic: string)

  /** `credentials.backends_shared`: organisation- and space-scoped prefixes. */
  datatype SharedBackends = SharedBackends(organization: string, space: string)

  /** `entity.credentials` */
  datatype Credentials = Credentials(
    address: string,
    auth: Auth,
    backends: Backends,
    sharedBackends: SharedBackends)

  /** `resources[i].entity`; the name is used only in a diagnostic line. */
  datatype Entity = Entity(name: string, credentials: Credentials)

  datatype Resource = Resource(entity: Entity)

  /** The whole decoded listing. */
  datatype ServiceKeyList = ServiceKeyList(resources: seq<Resource>)
}
