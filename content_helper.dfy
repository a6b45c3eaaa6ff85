/**
 * ContentHelper (lib/chef/provider/file/content_helper.rb): the create and
 * content-change steps of the file provider, run on behalf of a provider
 * object whose converge_by it uses. Its steps are the provider's own
 * (`FileProvider.CreateFileStep`, `FileProvider.ContentsChangesStep`).
 */
module ContentHelper {
  import opened Wrappers
  import opened FileSystem
  import opened FileProvider
  import Deployment

  class Helper {
    const provider: Provider
    const tempfile: Option<Tempfile>                  // @content_object.tempfile
    const strategy: Deployment.DeploymentStrategy     // @deployment_strategy
    const path: Path                                  // @new_resource.path
    const currentChecksum: Option<Digest>             // @current_resource.checksum

    constructor (provider: Provider, tempfile: Option<Tempfile>, strategy: Deployment.DeploymentStrategy,
                 path: Path, currentChecksum: Option<Digest>)
      ensures this.provider == provider && this.tempfile == tempfile && this.strategy == strategy
      ensures this.path == path && this.currentChecksum == currentChecksum
    {
      this.provider := provider;
      this.tempfile := tempfile;
      this.strategy := strategy;
      this.path := path;
      this.currentChecksum := currentChecksum;
    }

    function Environment(): (r: Env)
    {
      Env(path, provider.action, provider.whyRun, strategy, tempfile, provider.aclChangesRequired,
          provider.fs.umask, provider.fs.now, provider.digest)
    }

    method DoCreateFile()
      modifies provider, provider.fs
      ensures provider.Snapshot() == CreateFileStep(old(provider.Snapshot()), Environment())
    {
      if !provider.fs.Exists(path) {
        var run := provider.ConvergeBy(CreateFile(path));
        if run {
          Deployment.Create(strategy, provider.fs, path);
        }
      }
    }

    method DoContentsChanges() returns (r: Outcome<Error>)
      modifies provider, provider.fs
      ensures Step(r, provider.Snapshot()) == ContentsChangesStep(old(provider.Snapshot()), Environment(), currentChecksum)
    {
      var fs := provider.fs;
      if tempfile.None? {
        return Pass;
      }
      var temp := tempfile.value;
      if temp.path.None? || !fs.Exists(temp.path.value) {
        return Fail(Confused);
      }
      var tp := temp.path.value;
      var tempDigest := provider.Checksum(tp);
      if ContentsChanged(tempDigest, currentChecksum) {
        var run := provider.ConvergeBy(UpdateContent(path, ShortCksum(currentChecksum), ShortCksum(Some(tempDigest))));
        if run {
          if fs.Exists(path) {
            fs.Backup(path);
          }
          var deployed := Deployment.Deploy(strategy, fs, tp, path);
          if deployed.Fail? {
            return Fail(FsFailure(deployed.error));
          }
        }
      }
      fs.Unlink(tp);
      r := Pass;
    }
  }
}
