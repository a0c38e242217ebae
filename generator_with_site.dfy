/** The sited generator (`BaseCodeGeneratorWithSite`): it keeps the site object the
    host gives it, creates a service provider over that site on demand, memoises the
    CodeDom provider it obtains through it, and derives the output extension. */
module GeneratorWithSite {
  import opened Wrappers
  import opened CodeGenerator

  /** A CodeDom provider, reduced to what the generator reads from it. */
  datatype CodeDomProvider = CodeDomProvider(language: string, fileExtension: Option<string>)

  /** `CodeDomProvider.CreateProvider("C#")`. */
  const CSharpProvider: CodeDomProvider := CodeDomProvider("C#", Some("cs"))

  /** What asking a site for the `SVSMDCodeDomProvider` service yields: nothing usable
      as an `IVSMDCodeDomProvider`, or one whose `CodeDomProvider` property may or may
      not be a `CodeDomProvider`. */
  datatype CodeDomService = NoService | Service(provider: Option<CodeDomProvider>)

  /** A site object: whether it implements the OLE `IServiceProvider`, the CodeDom
      service it offers, and the interface ids `QueryInterface` accepts. */
  datatype Site = Site(isServiceProvider: bool, codeDomService: CodeDomService, interfaces: set<int>)

  /** `_site as IServiceProvider`. */
  function AsServiceProvider(site: Option<Site>): Option<Site> {
    if site.Some? && site.value.isServiceProvider then site else None
  }

  /** A `ServiceProvider` wrapped around a site; constructing one over no service
      provider throws `ArgumentNullException`. */
  class ServiceProvider {
    const site: Site

    constructor (site: Site)
      ensures this.site == site
    {
      this.site := site;
    }
  }

  /** The CodeDom provider `GetCodeProvider` returns, given the site and the cache. */
  function CodeProviderFor(site: Option<Site>, cached: Option<CodeDomProvider>): Result<Option<CodeDomProvider>, Exception> {
    if cached.Some? then Success(cached)
    else if AsServiceProvider(site).None? then Failure(ArgumentNull)
    else match site.value.codeDomService
      case NoService => Success(Some(CSharpProvider))
      case Service(provider) => Success(provider)
  }

  /** The cache after `GetCodeProvider`: set to whatever was obtained when nothing
      was cached, unchanged when it threw. */
  function CacheAfter(site: Option<Site>, cached: Option<CodeDomProvider>): Option<CodeDomProvider> {
    match CodeProviderFor(site, cached)
    case Success(p) => p
    case Failure(_) => cached
  }

  /** Number of leading '.' characters of `s`. */
  function LeadingDots(s: string): (n: nat)
    ensures n <= |s|
    ensures forall i :: 0 <= i < n ==> s[i] == '.'
    ensures n < |s| ==> s[n] != '.'
  {
    if |s| > 0 && s[0] == '.' then 1 + LeadingDots(s[1..]) else 0
  }

  /** The normalisation in `GetDefaultExtension`: a non-empty extension becomes "."
      followed by the extension with all its leading dots removed; a missing or
      empty one is returned as it is. */
  function NormalizeExtension(extension: Option<string>): (r: Option<string>)
    ensures extension.None? || extension.value == [] ==> r == extension
    ensures extension.Some? && extension.value != [] ==>
      && r.Some? && |r.value| >= 1 && r.value[0] == '.'
      && |r.value| - 1 <= |extension.value|
      && r.value[1..] == extension.value[|extension.value| - (|r.value| - 1)..]
      && (forall i :: 0 <= i < |extension.value| - (|r.value| - 1) ==> extension.value[i] == '.')
      && (|r.value| > 1 ==> r.value[1] != '.')
  {
    if extension.Some? && |extension.value| > 0 then
      var s := extension.value;
      Some("." + s[LeadingDots(s)..])
    else
      extension
  }

  /** Normalising an extension twice is the same as normalising it once. */
  lemma NormalizeIdempotent(extension: Option<string>)
    ensures NormalizeExtension(NormalizeExtension(extension)) == NormalizeExtension(extension)
  {
    var r := NormalizeExtension(extension);
    if r.Some? && |r.value| > 0 {
      var s := r.value;
      assert s[0] == '.';
      assert LeadingDots(s) == 1 by {
        assert LeadingDots(s) == 1 + LeadingDots(s[1..]);
        if |s| > 1 {
          assert s[1..][0] != '.';
        }
      }
      assert "." + s[1..] == s;
    }
  }

  /** What `GetDefaultExtension` returns, given the site and the cache: the
      normalised `FileExtension` of the CodeDom provider, or the exception raised
      on the way (a missing provider fails when its extension is read). */
  function DefaultExtensionFor(site: Option<Site>, cached: Option<CodeDomProvider>): Result<Option<string>, Exception> {
    match CodeProviderFor(site, cached)
    case Failure(e) => Failure(e)
    case Success(None) => Failure(NullReference)
    case Success(Some(provider)) => Success(NormalizeExtension(provider.fileExtension))
  }

  class CodeGeneratorWithSite {
    const base: BaseCodeGenerator
    var site: Option<Site>
    var codeDomProvider: Option<CodeDomProvider>
    var serviceProvider: ServiceProvider?
    /** Service providers created since the site was last set. */
    ghost var serviceProvidersCreated: nat

    /** At most one service provider per site, and it wraps the current site. */
    ghost predicate Valid()
      reads this
    {
      && serviceProvidersCreated <= 1
      && (serviceProvider == null <==> serviceProvidersCreated == 0)
      && (serviceProvider != null ==> AsServiceProvider(site) == Some(serviceProvider.site))
    }

    constructor ()
      ensures Valid() && fresh(base)
      ensures base.inputFilePath == "" && base.fileNameSpace == "" && base.codeGeneratorProgress == null
      ensures site == None && codeDomProvider == None && serviceProvider == null
    {
      base := new BaseCodeGenerator();
      site := None;
      codeDomProvider := None;
      serviceProvider := null;
      serviceProvidersCreated := 0;
    }

    /** `IObjectWithSite.SetSite`: a new site, and both caches emptied. */
    method SetSite(pUnkSite: Option<Site>)
      modifies this
      ensures Valid()
      ensures site == pUnkSite && codeDomProvider == None && serviceProvider == null
      ensures serviceProvidersCreated == 0
    {
      site := pUnkSite;
      codeDomProvider := None;
      serviceProvider := null;
      serviceProvidersCreated := 0;
    }

    /** `IObjectWithSite.GetSite`: fails with E_FAIL when unsited and with
        E_NOINTERFACE when the site does not support `riid`. */
    method GetSite(riid: int) returns (r: Result<Site, Exception>)
      ensures site.None? ==> r == Failure(ComError(E_FAIL))
      ensures site.Some? && riid !in site.value.interfaces ==> r == Failure(ComError(E_NOINTERFACE))
      ensures site.Some? && riid in site.value.interfaces ==> r == Success(site.value)
    {
      if site.None? {
        return Failure(ComError(E_FAIL));
      }
      if riid !in site.value.interfaces {
        return Failure(ComError(E_NOINTERFACE));
      }
      r := Success(site.value);
    }

    /** The demand-created service provider: made once per site, then reused. */
    method SiteServiceProvider() returns (r: Result<ServiceProvider, Exception>)
      requires Valid()
      modifies this
      ensures Valid()
      ensures site == old(site) && codeDomProvider == old(codeDomProvider)
      ensures old(serviceProvider) != null ==>
        r == Success(old(serviceProvider)) && serviceProvider == old(serviceProvider)
        && serviceProvidersCreated == old(serviceProvidersCreated)
      ensures old(serviceProvider) == null && AsServiceProvider(site).None? ==>
        r == Failure(ArgumentNull) && serviceProvider == null && serviceProvidersCreated == 0
      ensures old(serviceProvider) == null && AsServiceProvider(site).Some? ==>
        r.Success? && fresh(r.value) && serviceProvider == r.value && serviceProvider.site == site.value
        && serviceProvidersCreated == 1
    {
      if serviceProvider == null {
        var s := AsServiceProvider(site);
        if s.None? {
          return Failure(ArgumentNull);
        }
        serviceProvider := new ServiceProvider(s.value);
        serviceProvidersCreated := serviceProvidersCreated + 1;
      }
      r := Success(serviceProvider);
    }

    /** `GetCodeProvider`: the memoised CodeDom provider, otherwise the one the
        site's CodeDom service offers, falling back to C# when there is no such
        service. Only a provider actually obtained is kept. */
    method GetCodeProvider() returns (r: Result<Option<CodeDomProvider>, Exception>)
      requires Valid()
      modifies this
      ensures Valid() && site == old(site)
      ensures r == CodeProviderFor(old(site), old(codeDomProvider))
      ensures codeDomProvider == CacheAfter(old(site), old(codeDomProvider))
      ensures old(serviceProvider) != null ==> serviceProvider == old(serviceProvider)
      ensures serviceProvider == null || serviceProvider == old(serviceProvider) || fresh(serviceProvider)
    {
      if codeDomProvider.None? {
        var sp := SiteServiceProvider();
        if sp.Failure? {
          return Failure(sp.error);
        }
        match sp.value.site.codeDomService
        case NoService =>
          codeDomProvider := Some(CSharpProvider);
        case Service(provider) =>
          codeDomProvider := provider;
      }
      r := Success(codeDomProvider);
    }

    /** `GetDefaultExtension`: the provider's file extension, normalised. */
    method GetDefaultExtension() returns (r: Result<Option<string>, Exception>)
      requires Valid()
      modifies this
      ensures Valid() && site == old(site)
      ensures r == DefaultExtensionFor(old(site), old(codeDomProvider))
      ensures codeDomProvider == CacheAfter(old(site), old(codeDomProvider))
      ensures old(serviceProvider) != null ==> serviceProvider == old(serviceProvider)
      ensures serviceProvider == null || serviceProvider == old(serviceProvider) || fresh(serviceProvider)
    {
      var codeDom := GetCodeProvider();
      if codeDom.Failure? {
        return Failure(codeDom.error);
      }
      if codeDom.value.None? {
        return Failure(NullReference);
      }
      r := Success(NormalizeExtension(codeDom.value.value.fileExtension));
    }

    /** `IVsSingleFileGenerator.DefaultExtension`: S_OK with the computed extension,
        or E_FAIL with the empty text when computing it throws. */
    method DefaultExtension() returns (hr: int, defaultExtension: Option<string>)
      requires Valid()
      modifies this
      ensures Valid() && site == old(site)
      ensures var computed := DefaultExtensionFor(old(site), old(codeDomProvider));
        && (hr == S_OK <==> computed.Success?)
        && (hr == E_FAIL <==> computed.Failure?)
        && defaultExtension == if computed.Success? then computed.value else Some("")
      ensures codeDomProvider == CacheAfter(old(site), old(codeDomProvider))
    {
      var computed := GetDefaultExtension();
      if computed.Success? {
        hr, defaultExtension := S_OK, computed.value;
      } else {
        hr, defaultExtension := E_FAIL, Some("");
      }
    }
  }

  /** Once a provider is cached, asking again returns it without consulting the site. */
  lemma CachedProviderIsKept(site: Option<Site>, cached: Option<CodeDomProvider>)
    requires CodeProviderFor(site, cached).Success? && CodeProviderFor(site, cached).value.Some?
    ensures CodeProviderFor(site, CacheAfter(site, cached)) == CodeProviderFor(site, cached)
    ensures CacheAfter(site, CacheAfter(site, cached)) == CacheAfter(site, cached)
  {
  }
}
